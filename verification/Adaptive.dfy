/**
 * The adaptive concurrency controller (src/adaptive-controller.js): smoothed
 * signals, a direction per tick, a debounce, and resizes that take their time.
 */
module Adaptive {
  import opened Prelude

  datatype Direction = Grow | Shrink | Hold

  datatype Config = Config(
    minWorkers: int,
    maxWorkers: int,
    initialWorkers: int,
    alpha: real,
    debounceTicks: int,
    shrinkElu: real,
    shrinkLatency: real,
    growElu: real,
    growLatency: real,
    enabled: bool)

  /** What the factory and the classes it builds accept. */
  predicate Accepted(cfg: Config) {
    1 <= cfg.minWorkers <= cfg.maxWorkers && 0.0 < cfg.alpha < 1.0 && cfg.debounceTicks >= 1
  }

  // ---- Smoothing ----

  /** One update of the average; the first sample is taken as it is. */
  function Smooth(alpha: real, value: Option<real>, sample: real): real {
    if value.None? then sample else alpha * sample + (1.0 - alpha) * value.value
  }

  function SmoothAll(alpha: real, value: Option<real>, samples: seq<real>): Option<real> {
    if samples == [] then value
    else Some(Smooth(alpha, SmoothAll(alpha, value, samples[..|samples| - 1]), samples[|samples| - 1]))
  }

  function Pow(b: real, n: nat): real {
    if n == 0 then 1.0 else b * Pow(b, n - 1)
  }

  lemma Lower(alpha: real, beta: real, x: real, v: real, s: real, w: real)
    requires alpha >= 0.0 && beta >= 0.0 && x >= s && v >= w
    ensures alpha * x + beta * v >= alpha * s + beta * w
  {
  }

  lemma Mix(alpha: real, x: real, v: real, lo: real, hi: real)
    requires 0.0 < alpha < 1.0 && lo <= x <= hi && lo <= v <= hi
    ensures lo <= alpha * x + (1.0 - alpha) * v <= hi
  {
    Lower(alpha, 1.0 - alpha, x, v, lo, lo);
    Lower(alpha, 1.0 - alpha, hi, hi, x, v);
  }

  ghost predicate Within(samples: seq<real>, lo: real, hi: real) {
    forall x :: x in samples ==> lo <= x <= hi
  }

  ghost predicate AtLeast(samples: seq<real>, s: real) {
    forall x :: x in samples ==> x >= s
  }

  /** The average never leaves the hull of its start and its samples. */
  lemma {:induction false} StaysInHull(alpha: real, value: Option<real>, samples: seq<real>, lo: real, hi: real)
    requires 0.0 < alpha < 1.0
    requires value.Some? ==> lo <= value.value <= hi
    requires Within(samples, lo, hi)
    ensures var v := SmoothAll(alpha, value, samples); v.Some? ==> lo <= v.value <= hi
    decreases |samples|
  {
    if samples != [] {
      var init, x := samples[..|samples| - 1], samples[|samples| - 1];
      assert x in samples;
      assert Within(init, lo, hi) by {
        forall y | y in init ensures lo <= y <= hi {
          assert y in samples;
        }
      }
      StaysInHull(alpha, value, init, lo, hi);
      var v := SmoothAll(alpha, value, init);
      if v.Some? {
        Mix(alpha, x, v.value, lo, hi);
      }
    }
  }

  /** How far below `s` an average starts; an average not started yet takes the first sample. */
  function Gap(value: Option<real>, s: real): (g: real)
    ensures g >= 0.0
  {
    if value.None? || value.value >= s then 0.0 else s - value.value
  }

  lemma PowPositive(b: real, n: nat)
    requires 0.0 < b < 1.0
    ensures 0.0 < Pow(b, n) <= 1.0
  {
    if n > 0 {
      PowPositive(b, n - 1);
    }
  }

  lemma GapStep(alpha: real, v: real, x: real, s: real, d: real)
    requires 0.0 < alpha < 1.0 && x >= s && v >= s - d
    ensures alpha * x + (1.0 - alpha) * v >= s - (1.0 - alpha) * d
  {
    Lower(alpha, 1.0 - alpha, x, v, s, s - d);
  }

  /** What is left of a gap after `n` ticks. */
  function Remaining(alpha: real, g: real, n: nat): real {
    if n == 0 then g else (1.0 - alpha) * Remaining(alpha, g, n - 1)
  }

  lemma {:induction false} RemainingIs(alpha: real, g: real, n: nat)
    ensures Remaining(alpha, g, n) == Pow(1.0 - alpha, n) * g
  {
    if n > 0 {
      RemainingIs(alpha, g, n - 1);
    }
  }

  lemma PrefixAtLeast(xs: seq<real>, n: nat, s: real)
    requires AtLeast(xs, s) && n <= |xs|
    ensures AtLeast(xs[..n], s)
  {
    forall y | y in xs[..n] ensures y >= s {
      assert y in xs;
    }
  }

  /** Geometric convergence: under samples of at least `s` the gap shrinks by the factor (1 - alpha) each tick. */
  lemma {:induction false} GapShrinks(alpha: real, value: Option<real>, samples: seq<real>, s: real)
    requires 0.0 < alpha < 1.0 && samples != [] && AtLeast(samples, s)
    ensures SmoothAll(alpha, value, samples).value >= s - Remaining(alpha, Gap(value, s), |samples|)
    decreases |samples|
  {
    var init, x := samples[..|samples| - 1], samples[|samples| - 1];
    assert x in samples;
    PrefixAtLeast(samples, |samples| - 1, s);
    var v := SmoothAll(alpha, value, init);
    if init != [] {
      GapShrinks(alpha, value, init, s);
    }
    GapNext(alpha, v, x, s, if v.Some? then Remaining(alpha, Gap(value, s), |init|) else 0.0);
  }

  lemma GapNext(alpha: real, v: Option<real>, x: real, s: real, d: real)
    requires 0.0 < alpha < 1.0 && x >= s && (if v.Some? then v.value >= s - d else d == 0.0)
    ensures Smooth(alpha, v, x) >= s - (1.0 - alpha) * d
  {
    if v.Some? {
      GapStep(alpha, v.value, x, s, d);
    }
  }

  /** Bernoulli's inequality, which bounds how long the convergence takes. */
  lemma {:induction false} Bernoulli(alpha: real, n: nat)
    requires 0.0 < alpha < 1.0
    ensures Pow(1.0 - alpha, n) * (1.0 + n as real * alpha) <= 1.0
    decreases n
  {
    if n > 0 {
      Bernoulli(alpha, n - 1);
      PowPositive(1.0 - alpha, n - 1);
      var p, m := Pow(1.0 - alpha, n - 1), (n - 1) as real;
      BernoulliStep(alpha, p, m);
      assert n as real == m + 1.0;
    }
  }

  lemma BernoulliStep(alpha: real, p: real, m: real)
    requires 0.0 < alpha < 1.0 && 0.0 < p <= 1.0 && m >= 0.0 && p * (1.0 + m * alpha) <= 1.0
    ensures (1.0 - alpha) * p * (1.0 + (m + 1.0) * alpha) <= 1.0
  {
    assert (1.0 - alpha) * (1.0 + (m + 1.0) * alpha) == 1.0 + m * alpha - (m + 1.0) * (alpha * alpha);
    assert (m + 1.0) * (alpha * alpha) >= 0.0;
    assert p * ((1.0 - alpha) * (1.0 + (m + 1.0) * alpha)) <= p * (1.0 + m * alpha);
  }

  /** A number of ticks after which a gap of `g` is below `room`. */
  function Ticks(alpha: real, g: real, room: real): (k: nat)
    requires 0.0 < alpha < 1.0 && g >= 0.0 && room > 0.0
    ensures k >= 1
  {
    assert alpha * room > 0.0;
    assert g / (alpha * room) >= 0.0;
    (g / (alpha * room)).Floor + 1
  }

  lemma TicksSuffice(alpha: real, g: real, room: real)
    requires 0.0 < alpha < 1.0 && g >= 0.0 && room > 0.0
    ensures Remaining(alpha, g, Ticks(alpha, g, room)) < room
  {
    var k := Ticks(alpha, g, room);
    var n := k as real;
    assert alpha * room > 0.0;
    Quotient(n, g, alpha * room);
    RemainingIs(alpha, g, k);
    Bernoulli(alpha, k);
    PowPositive(1.0 - alpha, k);
    BelowRoom(alpha, Pow(1.0 - alpha, k), n, g, room);
  }

  lemma Quotient(n: real, g: real, d: real)
    requires d > 0.0 && n > g / d
    ensures n * d > g
  {
    assert g / d * d == g;
  }

  lemma BelowRoom(alpha: real, p: real, n: real, g: real, room: real)
    requires 0.0 < alpha && 0.0 < p && p * (1.0 + n * alpha) <= 1.0 && room > 0.0 && n * (alpha * room) > g
    ensures p * g < room
  {
    assert g < room * (1.0 + n * alpha);
    assert p * g < p * (room * (1.0 + n * alpha));
    assert p * (room * (1.0 + n * alpha)) == room * (p * (1.0 + n * alpha));
  }

  // ---- Classification ----

  function Classify(cfg: Config, elu: Option<real>, latency: Option<real>): Direction {
    if elu.None? || latency.None? then Hold
    else if elu.value > cfg.shrinkElu || latency.value > cfg.shrinkLatency then Shrink
    else if elu.value < cfg.growElu && latency.value < cfg.growLatency then Grow
    else Hold
  }

  /** Each signal alone can shrink the pool; growing takes both, and never against a shrink signal. */
  lemma ClassifyMonotone(cfg: Config, e: real, l: real, f: real, m: real)
    requires e <= f && l <= m
    ensures Classify(cfg, Some(e), Some(l)) == Shrink ==> Classify(cfg, Some(f), Some(m)) == Shrink
    ensures Classify(cfg, Some(f), Some(m)) == Grow ==> Classify(cfg, Some(e), Some(l)) == Grow
  {
  }

  /**
   * The direction in the four thresholds: shrink if and only if either signal
   * is above its own, grow if and only if both are below theirs and neither
   * shrinks, and hold in between or until both have a sample.
   */
  lemma ClassifyIff(cfg: Config, elu: Option<real>, latency: Option<real>)
    ensures var d := Classify(cfg, elu, latency);
      && (d == Shrink <==> elu.Some? && latency.Some?
                           && !(elu.value <= cfg.shrinkElu && latency.value <= cfg.shrinkLatency))
      && (d == Grow <==> elu.Some? && latency.Some?
                         && elu.value <= cfg.shrinkElu && elu.value < cfg.growElu
                         && latency.value <= cfg.shrinkLatency && latency.value < cfg.growLatency)
      && (d == Hold <==> elu.None? || latency.None?
                         || (elu.value <= cfg.shrinkElu && latency.value <= cfg.shrinkLatency
                             && (elu.value >= cfg.growElu || latency.value >= cfg.growLatency)))
  {
  }

  // ---- Debounce ----

  datatype Debounce = Debounce(count: nat, direction: Option<Direction>)

  /** The counter before a tick's fire is decided. */
  function Counted(d: Debounce, dir: Direction): nat {
    if d.direction == Some(dir) then d.count + 1 else 1
  }

  predicate Fires(d: Debounce, dir: Direction, threshold: int) { Counted(d, dir) >= threshold }

  function Noted(d: Debounce, dir: Direction, threshold: int): Debounce {
    Debounce(if Fires(d, dir, threshold) then 0 else Counted(d, dir), Some(dir))
  }

  function NoteAll(dirs: seq<Direction>, threshold: int): Debounce {
    if dirs == [] then Debounce(0, None) else Noted(NoteAll(dirs[..|dirs| - 1], threshold), dirs[|dirs| - 1], threshold)
  }

  /** The length of the run of equal directions that ends the history. */
  function Streak(dirs: seq<Direction>): (n: nat)
    ensures n <= |dirs| && (dirs != [] ==> n >= 1)
  {
    if dirs == [] then 0
    else if |dirs| >= 2 && dirs[|dirs| - 2] == dirs[|dirs| - 1] then Streak(dirs[..|dirs| - 1]) + 1
    else 1
  }

  /** The counter fires at the last tick of this history. */
  predicate FiresAt(dirs: seq<Direction>, threshold: int)
    requires dirs != []
  {
    Fires(NoteAll(dirs[..|dirs| - 1], threshold), dirs[|dirs| - 1], threshold)
  }

  lemma NextRemainder(n: nat, t: int)
    requires t >= 1
    ensures (n + 1) % t == if n % t + 1 >= t then 0 else n % t + 1
  {
    var q, r := n / t, n % t;
    assert n + 1 == t * q + (r + 1);
    if r + 1 >= t {
      assert n + 1 == t * (q + 1) + 0;
      Remainder(n + 1, t, q + 1, 0);
    } else {
      Remainder(n + 1, t, q, r + 1);
    }
  }

  lemma Remainder(n: int, t: int, q: int, r: int)
    requires t >= 1 && n == t * q + r && 0 <= r < t
    ensures n % t == r
  {
    SameRemainder(t, q, r, n / t, n % t);
  }

  lemma SameRemainder(t: int, q: int, r: int, p: int, m: int)
    requires t >= 1 && t * q + r == t * p + m && 0 <= r < t && 0 <= m < t
    ensures r == m
  {
    if q < p {
      OneMore(t, q, p);
      assert false;
    } else if p < q {
      OneMore(t, p, q);
      assert false;
    }
  }

  lemma {:induction false} OneMore(t: int, q: int, p: int)
    requires t >= 1 && q < p
    ensures t * q + t <= t * p
    decreases p - q
  {
    assert t * p == t * (p - 1) + t;
    if p > q + 1 {
      OneMore(t, q, p - 1);
    }
  }

  lemma {:induction false} CountIsStreak(dirs: seq<Direction>, threshold: int)
    requires threshold >= 1
    ensures var d := NoteAll(dirs, threshold);
      && d.count == Streak(dirs) % threshold
      && d.direction == (if dirs == [] then None else Some(dirs[|dirs| - 1]))
    decreases |dirs|
  {
    if dirs == [] {
      Remainder(0, threshold, 0, 0);
    } else {
      var init := dirs[..|dirs| - 1];
      CountIsStreak(init, threshold);
      NextRemainder(Streak(dirs) - 1, threshold);
      if Streak(dirs) == 1 {
        Remainder(0, threshold, 0, 0);
      }
    }
  }

  /** A tick fires exactly when the run of equal directions that it ends has a length divisible by the threshold. */
  lemma FiresIffStreak(dirs: seq<Direction>, threshold: int)
    requires threshold >= 1 && dirs != []
    ensures FiresAt(dirs, threshold) <==> Streak(dirs) % threshold == 0
  {
    var init := dirs[..|dirs| - 1];
    CountIsStreak(init, threshold);
    NextRemainder(Streak(dirs) - 1, threshold);
    if Streak(dirs) == 1 {
      Remainder(0, threshold, 0, 0);
    }
  }

  /** So two fires are at least the threshold apart. */
  lemma {:induction false} FiresApart(dirs: seq<Direction>, threshold: int, i: nat)
    requires threshold >= 1 && 0 < i < |dirs| && FiresAt(dirs[..i], threshold) && FiresAt(dirs, threshold)
    ensures |dirs| - i >= threshold
  {
    assert dirs[..|dirs|] == dirs;
    CountAfterFire(dirs, threshold, i, |dirs| - 1);
  }

  /** From a fire on, the count is at most the number of ticks since. */
  lemma {:induction false} CountAfterFire(dirs: seq<Direction>, threshold: int, i: nat, j: nat)
    requires threshold >= 1 && 0 < i <= j <= |dirs| && FiresAt(dirs[..i], threshold)
    ensures NoteAll(dirs[..j], threshold).count <= j - i
    decreases j
  {
    assert dirs[..j][..j - 1] == dirs[..j - 1];
    if i < j {
      CountAfterFire(dirs, threshold, i, j - 1);
    }
  }

  // ---- The controller ----

  /** A resize under way, `age` ticks old. */
  datatype Resize = Resize(kind: Direction, age: nat)

  datatype State = State(
    cfg: Config,
    elu: Option<real>,
    latency: Option<real>,
    debounce: Debounce,
    effective: int,
    pending: seq<Resize>)

  datatype Op = OpTick(elu: real, latency: real) | OpSettle(index: nat, ok: bool)

  function Init(cfg: Config): State {
    State(cfg, None, None, Debounce(0, None), cfg.initialWorkers, [])
  }

  function Aged(pending: seq<Resize>): seq<Resize> {
    seq(|pending|, i requires 0 <= i < |pending| => pending[i].(age := pending[i].age + 1))
  }

  function Sampled(s: State, elu: real, latency: real): State {
    s.(elu := Some(Smooth(s.cfg.alpha, s.elu, elu)), latency := Some(Smooth(s.cfg.alpha, s.latency, latency)))
  }

  /** The direction of the tick that reads these samples. */
  function Direct(s: State, elu: real, latency: real): Direction {
    var u := Sampled(s, elu, latency);
    Classify(s.cfg, u.elu, u.latency)
  }

  predicate TickFires(s: State, elu: real, latency: real) {
    Fires(s.debounce, Direct(s, elu, latency), s.cfg.debounceTicks)
  }

  /** The gate of a fire: it looks at the settled size only. */
  predicate Starts(s: State, dir: Direction) {
    s.cfg.enabled
    && ((dir == Grow && s.effective < s.cfg.maxWorkers) || (dir == Shrink && s.effective > s.cfg.minWorkers))
  }

  function Tick(s: State, elu: real, latency: real): State {
    var dir := Direct(s, elu, latency);
    Sampled(s, elu, latency).(
      debounce := Noted(s.debounce, dir, s.cfg.debounceTicks),
      pending := Aged(s.pending) + (if TickFires(s, elu, latency) && Starts(s, dir) then [Resize(dir, 0)] else []))
  }

  /** A resize comes back; only a successful one counts. */
  function Settle(s: State, index: nat, ok: bool): State {
    if index >= |s.pending| then s
    else
      s.(pending := s.pending[..index] + s.pending[index + 1..],
         effective := s.effective + (if !ok then 0 else if s.pending[index].kind == Grow then 1 else -1))
  }

  function Step(s: State, op: Op): State {
    match op
    case OpTick(elu, latency) => Tick(s, elu, latency)
    case OpSettle(k, ok) => Settle(s, k, ok)
  }

  function Run(s: State, ops: seq<Op>): State
    decreases |ops|
  {
    if ops == [] then s else Run(Step(s, ops[0]), ops[1..])
  }

  // ---- The band ----

  function Of(pending: seq<Resize>, kind: Direction): nat {
    if pending == [] then 0
    else Of(pending[..|pending| - 1], kind) + (if pending[|pending| - 1].kind == kind then 1 else 0)
  }

  lemma {:induction false} OfJoin(a: seq<Resize>, b: seq<Resize>, kind: Direction)
    ensures Of(a + b, kind) == Of(a, kind) + Of(b, kind)
    decreases |b|
  {
    if b == [] {
      assert a + b == a;
    } else {
      assert (a + b)[..|a + b| - 1] == a + b[..|b| - 1];
      OfJoin(a, b[..|b| - 1], kind);
    }
  }

  lemma {:induction false} OfAged(pending: seq<Resize>, kind: Direction)
    ensures Of(Aged(pending), kind) == Of(pending, kind)
    decreases |pending|
  {
    if pending != [] {
      assert Aged(pending)[..|pending| - 1] == Aged(pending[..|pending| - 1]);
      OfAged(pending[..|pending| - 1], kind);
    }
  }

  lemma {:induction false} OfAtMost(pending: seq<Resize>, kind: Direction)
    ensures Of(pending, kind) <= |pending|
    decreases |pending|
  {
    if pending != [] {
      OfAtMost(pending[..|pending| - 1], kind);
    }
  }

  /** With every resize under way counted as done, the size is off the band by less than `p`. */
  ghost predicate NearBand(s: State, p: nat) {
    && s.effective + Of(s.pending, Grow) <= s.cfg.maxWorkers + p - 1
    && s.effective - Of(s.pending, Shrink) >= s.cfg.minWorkers - (p - 1)
    && (forall r :: r in s.pending ==> r.kind != Hold)
  }

  lemma TickNear(s: State, elu: real, latency: real, p: nat)
    requires NearBand(s, p) && |Tick(s, elu, latency).pending| <= p
    ensures NearBand(Tick(s, elu, latency), p)
  {
    var t, dir := Tick(s, elu, latency), Direct(s, elu, latency);
    var before := Aged(s.pending);
    OfAged(s.pending, Grow);
    OfAged(s.pending, Shrink);
    if TickFires(s, elu, latency) && Starts(s, dir) {
      OfJoin(before, [Resize(dir, 0)], Grow);
      OfJoin(before, [Resize(dir, 0)], Shrink);
      OfAtMost(t.pending, Grow);
      OfAtMost(t.pending, Shrink);
    } else {
      assert t.pending == before;
    }
  }

  lemma SettleNear(s: State, index: nat, ok: bool, p: nat)
    requires NearBand(s, p)
    ensures NearBand(Settle(s, index, ok), p)
  {
    if index < |s.pending| {
      var a, r, b := s.pending[..index], s.pending[index], s.pending[index + 1..];
      assert s.pending == a + ([r] + b) && r in s.pending;
      OfTaken(a, r, b, Grow);
      OfTaken(a, r, b, Shrink);
    }
  }

  lemma OfTaken(a: seq<Resize>, r: Resize, b: seq<Resize>, kind: Direction)
    ensures Of(a + ([r] + b), kind) == Of(a + b, kind) + (if r.kind == kind then 1 else 0)
  {
    OfJoin(a, [r] + b, kind);
    OfJoin([r], b, kind);
    OfJoin(a, b, kind);
  }

  /** Never more than `p` resizes under way. */
  predicate AtMost(s: State, ops: seq<Op>, p: nat)
    decreases |ops|
  {
    |s.pending| <= p && (ops != [] ==> AtMost(Step(s, ops[0]), ops[1..], p))
  }

  lemma {:induction false} NearRun(s: State, ops: seq<Op>, p: nat)
    requires NearBand(s, p) && AtMost(s, ops, p)
    ensures NearBand(Run(s, ops), p) && Run(s, ops).cfg == s.cfg
    decreases |ops|
  {
    if ops != [] {
      match ops[0] {
        case OpTick(elu, latency) => TickNear(s, elu, latency, p);
        case OpSettle(k, ok) => SettleNear(s, k, ok, p);
      }
      NearRun(Step(s, ops[0]), ops[1..], p);
    }
  }

  /**
   * The size against the number of resizes under way: with at most `p` at any
   * time it is off the band by at most p - 1, so never with one at a time.
   */
  lemma BandByOverlap(cfg: Config, ops: seq<Op>, p: nat)
    requires Accepted(cfg) && cfg.minWorkers <= cfg.initialWorkers <= cfg.maxWorkers
    requires p >= 1 && AtMost(Init(cfg), ops, p)
    ensures cfg.minWorkers - (p - 1) <= Run(Init(cfg), ops).effective <= cfg.maxWorkers + (p - 1)
  {
    NearRun(Init(cfg), ops, p);
  }

  /** Every resize settles before the debounce could fire again. */
  predicate Prompt(s: State, ops: seq<Op>)
    decreases |ops|
  {
    ops != [] ==>
      && (ops[0].OpTick? ==> forall r :: r in s.pending ==> r.age + 1 < s.cfg.debounceTicks)
      && Prompt(Step(s, ops[0]), ops[1..])
  }

  /** A resize under way is at least as old as the counter since its fire. */
  ghost predicate OneAtATime(s: State) {
    |s.pending| <= 1 && forall r :: r in s.pending ==> s.debounce.count <= r.age
  }

  lemma TickOne(s: State, elu: real, latency: real)
    requires OneAtATime(s) && forall r :: r in s.pending ==> r.age + 1 < s.cfg.debounceTicks
    ensures OneAtATime(Tick(s, elu, latency))
  {
    if s.pending != [] {
      assert s.pending[0] in s.pending;
      assert !TickFires(s, elu, latency);
      assert Tick(s, elu, latency).pending == [s.pending[0].(age := s.pending[0].age + 1)];
    }
  }

  lemma {:induction false} PromptRun(s: State, ops: seq<Op>)
    requires OneAtATime(s) && Prompt(s, ops)
    ensures AtMost(s, ops, 1)
    decreases |ops|
  {
    if ops != [] {
      match ops[0] {
        case OpTick(elu, latency) => TickOne(s, elu, latency);
        case OpSettle(k, ok) =>
          forall r | r in Settle(s, k, ok).pending ensures r in s.pending {
          }
      }
      PromptRun(Step(s, ops[0]), ops[1..]);
    }
  }

  /** The size stays within the band in every run where each resize settles within the debounce window. */
  lemma BandKept(cfg: Config, ops: seq<Op>)
    requires Accepted(cfg) && cfg.minWorkers <= cfg.initialWorkers <= cfg.maxWorkers && Prompt(Init(cfg), ops)
    ensures cfg.minWorkers <= Run(Init(cfg), ops).effective <= cfg.maxWorkers
  {
    PromptRun(Init(cfg), ops);
    BandByOverlap(cfg, ops, 1);
  }

  // ---- Overlapping resizes do leave the band ----

  function Ticking(elu: real, latency: real, n: nat): seq<Op> {
    if n == 0 then [] else [OpTick(elu, latency)] + Ticking(elu, latency, n - 1)
  }

  function Successes(n: nat): seq<Op> {
    if n == 0 then [] else [OpSettle(0, true)] + Successes(n - 1)
  }

  ghost predicate AllOf(pending: seq<Resize>, dir: Direction) {
    forall r :: r in pending ==> r.kind == dir
  }

  /** The signals stand still at values that point one way, and nothing else was counted since the last fire. */
  predicate Still(s: State, elu: real, latency: real, dir: Direction) {
    && Accepted(s.cfg) && Classify(s.cfg, Some(elu), Some(latency)) == dir
    && (s.elu == None || s.elu == Some(elu)) && (s.latency == None || s.latency == Some(latency))
    && (s.debounce.count == 0 || s.debounce.direction == Some(dir))
    && s.debounce.count < s.cfg.debounceTicks
  }

  lemma SmoothStill(alpha: real, value: Option<real>, x: real)
    requires value == None || value == Some(x)
    ensures Smooth(alpha, value, x) == x
  {
    assert alpha * x + (1.0 - alpha) * x == x;
  }

  lemma StillTick(s: State, elu: real, latency: real, dir: Direction)
    requires Still(s, elu, latency, dir) && Starts(s, dir) && AllOf(s.pending, dir)
    ensures var t := Tick(s, elu, latency); var fires := s.debounce.count + 1 >= s.cfg.debounceTicks;
      && Still(t, elu, latency, dir) && t.cfg == s.cfg && t.effective == s.effective && AllOf(t.pending, dir)
      && t.debounce.count == (if fires then 0 else s.debounce.count + 1)
      && |t.pending| == |s.pending| + (if fires then 1 else 0)
  {
    SmoothStill(s.cfg.alpha, s.elu, elu);
    SmoothStill(s.cfg.alpha, s.latency, latency);
  }

  /** The fires of `n` such ticks, while nothing settles. */
  lemma {:induction false} StillRun(s: State, elu: real, latency: real, dir: Direction, n: nat, p: nat)
    requires Still(s, elu, latency, dir) && Starts(s, dir) && AllOf(s.pending, dir)
    requires |s.pending| + (s.debounce.count + n) / s.cfg.debounceTicks <= p
    ensures var t := Run(s, Ticking(elu, latency, n));
      && Still(t, elu, latency, dir) && t.cfg == s.cfg && t.effective == s.effective && AllOf(t.pending, dir)
      && t.debounce.count == (s.debounce.count + n) % s.cfg.debounceTicks
      && |t.pending| == |s.pending| + (s.debounce.count + n) / s.cfg.debounceTicks
    ensures AtMost(s, Ticking(elu, latency, n), p)
    decreases n
  {
    var d, c := s.cfg.debounceTicks, s.debounce.count;
    if n == 0 {
      Quotients(c, d, 0, c);
    } else {
      assert Ticking(elu, latency, n)[1..] == Ticking(elu, latency, n - 1);
      StillTick(s, elu, latency, dir);
      if c + 1 == d {
        OneMoreFire(n - 1, d);
      }
      NotNegative(c + n, d);
      StillRun(Tick(s, elu, latency), elu, latency, dir, n - 1, p);
    }
  }

  lemma NotNegative(n: nat, t: int)
    requires t >= 1
    ensures n / t >= 0
  {
    assert n == t * (n / t) + n % t;
  }

  lemma OneMoreFire(n: nat, t: int)
    requires t >= 1
    ensures (n + t) / t == n / t + 1 && (n + t) % t == n % t
  {
    assert n == t * (n / t) + n % t;
    Quotients(n + t, t, n / t + 1, n % t);
  }

  lemma Quotients(n: int, t: int, q: int, r: int)
    requires t >= 1 && n == t * q + r && 0 <= r < t
    ensures n / t == q && n % t == r
  {
    Remainder(n, t, q, r);
  }

  /** The size that `n` successful resizes add. */
  function Moved(dir: Direction, n: int): int { if dir == Grow then n else -n }

  lemma {:induction false} AllSucceed(s: State, dir: Direction, n: nat, p: nat)
    requires AllOf(s.pending, dir) && |s.pending| == n <= p
    ensures Run(s, Successes(n)) == s.(pending := [], effective := s.effective + Moved(dir, n))
    ensures AtMost(s, Successes(n), p)
    decreases n
  {
    if n > 0 {
      assert s.pending[0] in s.pending;
      assert Settle(s, 0, true).pending == s.pending[1..];
      assert Successes(n)[1..] == Successes(n - 1);
      AllSucceed(Settle(s, 0, true), dir, n - 1, p);
    }
  }

  lemma {:induction false} Joined(s: State, a: seq<Op>, b: seq<Op>, p: nat)
    requires AtMost(s, a, p) && AtMost(Run(s, a), b, p)
    ensures AtMost(s, a + b, p) && Run(s, a + b) == Run(Run(s, a), b)
    decreases |a|
  {
    if a == [] {
      assert a + b == b;
    } else {
      assert (a + b)[1..] == a[1..] + b;
      Joined(Step(s, a[0]), a[1..], b, p);
    }
  }

  /** Nothing is counted and nothing under way. */
  predicate AtRest(s: State, elu: real, latency: real, dir: Direction) {
    Still(s, elu, latency, dir) && s.debounce.count == 0 && s.pending == []
  }

  /** `n` fires pass the gate before any of their resizes settles, and then all of them succeed. */
  lemma Burst(s: State, elu: real, latency: real, dir: Direction, n: nat, p: nat) returns (ops: seq<Op>)
    requires AtRest(s, elu, latency, dir) && Starts(s, dir) && n <= p
    ensures AtMost(s, ops, p)
    ensures var t := Run(s, ops);
      AtRest(t, elu, latency, dir) && t.cfg == s.cfg && t.effective == s.effective + Moved(dir, n)
  {
    var d := s.cfg.debounceTicks;
    Quotients(n * d, d, n, 0);
    StillRun(s, elu, latency, dir, n * d, p);
    var t := Run(s, Ticking(elu, latency, n * d));
    AllSucceed(t, dir, n, p);
    Joined(s, Ticking(elu, latency, n * d), Successes(n), p);
    ops := Ticking(elu, latency, n * d) + Successes(n);
  }

  /** `n` resizes one after the other, as long as the gate lets them pass. */
  lemma {:induction false} Approach(s: State, elu: real, latency: real, dir: Direction, n: nat, p: nat)
    returns (ops: seq<Op>)
    requires AtRest(s, elu, latency, dir) && p >= 1
    requires n > 0 ==> Starts(s, dir) && Starts(s.(effective := s.effective + Moved(dir, n - 1)), dir)
    ensures AtMost(s, ops, p)
    ensures var t := Run(s, ops);
      AtRest(t, elu, latency, dir) && t.cfg == s.cfg && t.effective == s.effective + Moved(dir, n)
    decreases n
  {
    if n == 0 {
      return [];
    }
    var first := Burst(s, elu, latency, dir, 1, p);
    var rest := Approach(Run(s, first), elu, latency, dir, n - 1, p);
    Joined(s, first, rest, p);
    ops := first + rest;
  }

  /**
   * The bound on overlap is reached for every `p` and on both sides, with at
   * most `p` resizes under way: one step inside the band `p` fires pass the
   * gate while nothing has settled, and all their workers count. Any samples
   * do that point that way, from any start with room on that side.
   */
  lemma OverlapExceedsBand(cfg: Config, elu: real, latency: real, dir: Direction, p: nat) returns (ops: seq<Op>)
    requires Accepted(cfg) && Classify(cfg, Some(elu), Some(latency)) == dir && p >= 1
    requires cfg.minWorkers <= cfg.initialWorkers <= cfg.maxWorkers && Starts(Init(cfg), dir)
    ensures AtMost(Init(cfg), ops, p)
    ensures Run(Init(cfg), ops).effective == if dir == Grow then cfg.maxWorkers + (p - 1) else cfg.minWorkers - (p - 1)
  {
    var s := Init(cfg);
    var room := if dir == Grow then cfg.maxWorkers - 1 - s.effective else s.effective - (cfg.minWorkers + 1);
    var first := Approach(s, elu, latency, dir, room, p);
    var last := Burst(Run(s, first), elu, latency, dir, p, p);
    Joined(s, first, last, p);
    ops := first + last;
  }

  /** A gate that never opens: resizing is disabled, or the band is a single size. */
  predicate Shut(cfg: Config) { !cfg.enabled || cfg.minWorkers == cfg.maxWorkers }

  lemma ShutStep(s: State, op: Op, t: State)
    requires Shut(s.cfg) && s.pending == [] && s.cfg.minWorkers <= s.effective <= s.cfg.maxWorkers && t == Step(s, op)
    ensures t.cfg == s.cfg && t.pending == [] && t.effective == s.effective
  {
  }

  lemma {:induction false} ShutRun(s: State, ops: seq<Op>)
    requires Shut(s.cfg) && s.pending == [] && s.cfg.minWorkers <= s.effective <= s.cfg.maxWorkers
    ensures Run(s, ops).effective == s.effective
    decreases |ops|
  {
    if ops != [] {
      ShutStep(s, ops[0], Step(s, ops[0]));
      ShutRun(Step(s, ops[0]), ops[1..]);
    }
  }

  lemma {:induction false} AtMostWeaker(s: State, ops: seq<Op>, p: nat, q: nat)
    requires AtMost(s, ops, p) && p <= q
    ensures AtMost(s, ops, q)
    decreases |ops|
  {
    if ops != [] {
      AtMostWeaker(Step(s, ops[0]), ops[1..], p, q);
    }
  }

  ghost predicate InBand(cfg: Config, ops: seq<Op>) {
    cfg.minWorkers <= Run(Init(cfg), ops).effective <= cfg.maxWorkers
  }

  /**
   * So the band holds in every run with at most `p` resizes under way if and
   * only if that is one at a time, or the gate never opens.
   */
  lemma BandHoldsIff(cfg: Config, p: nat)
    requires Accepted(cfg) && cfg.minWorkers <= cfg.initialWorkers <= cfg.maxWorkers
    ensures (forall ops :: AtMost(Init(cfg), ops, p) ==> InBand(cfg, ops)) <==> p <= 1 || Shut(cfg)
  {
    if p <= 1 || Shut(cfg) {
      forall ops | AtMost(Init(cfg), ops, p) ensures InBand(cfg, ops) {
        if Shut(cfg) {
          ShutRun(Init(cfg), ops);
        } else {
          AtMostWeaker(Init(cfg), ops, p, 1);
          BandByOverlap(cfg, ops, 1);
        }
      }
    } else {
      var elu, latency, dir := Leaving(cfg);
      var ops := OverlapExceedsBand(cfg, elu, latency, dir, p);
      assert !InBand(cfg, ops);
    }
  }

  /** Samples that lead out of a band of more than one size. */
  lemma Leaving(cfg: Config) returns (elu: real, latency: real, dir: Direction)
    requires !Shut(cfg) && cfg.minWorkers <= cfg.initialWorkers <= cfg.maxWorkers
    ensures Classify(cfg, Some(elu), Some(latency)) == dir && Starts(Init(cfg), dir)
  {
    if cfg.initialWorkers > cfg.minWorkers {
      return cfg.shrinkElu + 1.0, 0.0, Shrink;
    }
    elu := if cfg.growElu < cfg.shrinkElu then cfg.growElu - 1.0 else cfg.shrinkElu - 1.0;
    latency := if cfg.growLatency < cfg.shrinkLatency then cfg.growLatency - 1.0 else cfg.shrinkLatency - 1.0;
    dir := Grow;
  }

  // ---- Bounded response ----

  /** The controller after these ticks; resizes play no part in what it decides. */
  function Watched(s: State, elus: seq<real>, latencies: seq<real>): State
    requires |elus| == |latencies|
  {
    if elus == [] then s
    else
      var n := |elus| - 1;
      Tick(Watched(s, elus[..n], latencies[..n]), elus[n], latencies[n])
  }

  lemma {:induction false} WatchedSignals(s: State, elus: seq<real>, latencies: seq<real>)
    requires |elus| == |latencies|
    ensures var t := Watched(s, elus, latencies);
      && t.elu == SmoothAll(s.cfg.alpha, s.elu, elus)
      && t.latency == SmoothAll(s.cfg.alpha, s.latency, latencies)
      && t.cfg == s.cfg
    decreases |elus|
  {
    if elus != [] {
      WatchedSignals(s, elus[..|elus| - 1], latencies[..|elus| - 1]);
    }
  }

  /** The `i`-th tick has direction `dir`. */
  predicate Points(s: State, elus: seq<real>, latencies: seq<real>, i: nat, dir: Direction)
    requires i < |elus| == |latencies|
  {
    Direct(Watched(s, elus[..i], latencies[..i]), elus[i], latencies[i]) == dir
  }

  predicate FiresHere(s: State, elus: seq<real>, latencies: seq<real>, i: nat)
    requires i < |elus| == |latencies|
  {
    TickFires(Watched(s, elus[..i], latencies[..i]), elus[i], latencies[i])
  }

  lemma WatchedNext(s: State, elus: seq<real>, latencies: seq<real>, i: nat)
    requires i < |elus| == |latencies|
    ensures Watched(s, elus[..i + 1], latencies[..i + 1])
         == Tick(Watched(s, elus[..i], latencies[..i]), elus[i], latencies[i])
  {
    assert elus[..i + 1][..i] == elus[..i] && latencies[..i + 1][..i] == latencies[..i];
  }

  lemma {:induction false} RemainingShrinks(alpha: real, g: real, k: nat, n: nat)
    requires 0.0 < alpha < 1.0 && g >= 0.0 && k <= n
    ensures 0.0 <= Remaining(alpha, g, n) <= Remaining(alpha, g, k)
    decreases n
  {
    if k < n {
      RemainingShrinks(alpha, g, k, n - 1);
      Shorter(1.0 - alpha, Remaining(alpha, g, n - 1));
    } else if n > 0 {
      RemainingShrinks(alpha, g, k - 1, n - 1);
      Shorter(1.0 - alpha, Remaining(alpha, g, n - 1));
    }
  }

  lemma Shorter(b: real, x: real)
    requires 0.0 < b < 1.0 && x >= 0.0
    ensures 0.0 <= b * x <= x
  {
    assert (1.0 - b) * x == x - b * x;
  }

  /** From the `k`-th tick on the average is above `s` less the room. */
  lemma CloseFrom(alpha: real, value: Option<real>, samples: seq<real>, s: real, room: real, k: nat, n: nat)
    requires 0.0 < alpha < 1.0 && AtLeast(samples, s) && k <= n && 0 < n <= |samples|
    requires Remaining(alpha, Gap(value, s), k) < room
    ensures SmoothAll(alpha, value, samples[..n]).value > s - room
  {
    PrefixAtLeast(samples, n, s);
    GapShrinks(alpha, value, samples[..n], s);
    RemainingShrinks(alpha, Gap(value, s), k, n);
  }

  function Negated(value: Option<real>): Option<real> {
    if value.None? then None else Some(-value.value)
  }

  function Mirrored(xs: seq<real>): (r: seq<real>)
    ensures |r| == |xs| && forall i :: 0 <= i < |xs| ==> r[i] == -xs[i]
  {
    seq(|xs|, i requires 0 <= i < |xs| => -xs[i])
  }

  ghost predicate AtMostAll(xs: seq<real>, s: real) {
    forall x :: x in xs ==> x <= s
  }

  lemma {:induction false} SmoothMirrored(alpha: real, value: Option<real>, samples: seq<real>)
    ensures SmoothAll(alpha, Negated(value), Mirrored(samples)) == Negated(SmoothAll(alpha, value, samples))
    decreases |samples|
  {
    if samples != [] {
      var init, x := samples[..|samples| - 1], samples[|samples| - 1];
      SmoothMirrored(alpha, value, init);
      assert Mirrored(samples)[..|init|] == Mirrored(init);
      SmoothOpposite(alpha, SmoothAll(alpha, value, init), x);
      assert Mirrored(samples)[|init|] == -x;
    }
  }

  lemma SmoothOpposite(alpha: real, v: Option<real>, x: real)
    ensures Smooth(alpha, Negated(v), -x) == -Smooth(alpha, v, x)
  {
    if v.Some? {
      assert alpha * -x == -(alpha * x);
      assert (1.0 - alpha) * -v.value == -((1.0 - alpha) * v.value);
    }
  }

  /** The same from above, by symmetry. */
  lemma CloseFromAbove(alpha: real, value: Option<real>, samples: seq<real>, s: real, room: real, k: nat, n: nat)
    requires 0.0 < alpha < 1.0 && AtMostAll(samples, s) && k <= n && 0 < n <= |samples|
    requires Remaining(alpha, Gap(Negated(value), -s), k) < room
    ensures SmoothAll(alpha, value, samples[..n]).value < s + room
  {
    var mirrored := Mirrored(samples);
    forall y | y in mirrored ensures y >= -s {
      var i :| 0 <= i < |mirrored| && mirrored[i] == y;
      assert samples[i] in samples;
    }
    CloseFrom(alpha, Negated(value), mirrored, -s, room, k, n);
    assert mirrored[..n] == Mirrored(samples[..n]);
    SmoothMirrored(alpha, value, samples[..n]);
  }

  /** What a tick decides is what the smoothed signals say. */
  lemma PointsIs(s: State, elus: seq<real>, latencies: seq<real>, i: nat)
    requires i < |elus| == |latencies|
    ensures var e := SmoothAll(s.cfg.alpha, s.elu, elus[..i + 1]);
      var l := SmoothAll(s.cfg.alpha, s.latency, latencies[..i + 1]);
      e.Some? && l.Some? && Points(s, elus, latencies, i, Classify(s.cfg, e, l))
  {
    WatchedSignals(s, elus[..i + 1], latencies[..i + 1]);
    WatchedSignals(s, elus[..i], latencies[..i]);
    WatchedNext(s, elus, latencies, i);
  }

  /** While ticks point one way and none fires, the counter counts them. */
  lemma {:induction false} SilenceCounts(s: State, elus: seq<real>, latencies: seq<real>, m: nat, j: nat,
                                         dir: Direction)
    requires m <= j <= |elus| == |latencies| && s.cfg.debounceTicks >= 1
    requires forall i :: m <= i < j ==> Points(s, elus, latencies, i, dir) && !FiresHere(s, elus, latencies, i)
    ensures var d := Watched(s, elus[..j], latencies[..j]).debounce;
      d.count >= j - m && (m < j ==> d.direction == Some(dir))
    decreases j
  {
    if m < j {
      SilenceCounts(s, elus, latencies, m, j - 1, dir);
      WatchedNext(s, elus, latencies, j - 1);
      assert Points(s, elus, latencies, j - 1, dir) && !FiresHere(s, elus, latencies, j - 1);
    }
  }

  /** `debounceTicks` ticks in one direction fire, whatever came before. */
  lemma SteadyFires(s: State, elus: seq<real>, latencies: seq<real>, m: nat, dir: Direction) returns (i: nat)
    requires s.cfg.debounceTicks >= 1 && |elus| == |latencies| == m + s.cfg.debounceTicks
    requires forall j :: m <= j < |elus| ==> Points(s, elus, latencies, j, dir)
    ensures m <= i < |elus| && Points(s, elus, latencies, i, dir) && FiresHere(s, elus, latencies, i)
  {
    if j: nat :| m <= j < |elus| - 1 && FiresHere(s, elus, latencies, j) {
      return j;
    }
    i := |elus| - 1;
    SilenceCounts(s, elus, latencies, m, i, dir);
    WatchedSignals(s, elus[..i], latencies[..i]);
    assert Points(s, elus, latencies, i, dir);
  }

  /** The ticks that come before the `k`-th. */
  function BeforeTick(k: nat): nat { if k == 0 then 0 else k - 1 }

  /**
   * Bounded response: from any state, under an event loop utilization that
   * stays at `load` above the threshold, a shrink fires within `k` +
   * `debounceTicks` ticks, where `k` ticks bring what is left of the gap below
   * the distance from the threshold to the load.
   */
  lemma SustainedLoadShrinks(s: State, elus: seq<real>, latencies: seq<real>, load: real, k: nat) returns (i: nat)
    requires Accepted(s.cfg) && AtLeast(elus, load)
    requires Remaining(s.cfg.alpha, Gap(s.elu, load), k) < load - s.cfg.shrinkElu
    requires |elus| == |latencies| == BeforeTick(k) + s.cfg.debounceTicks
    ensures i < |elus| && Points(s, elus, latencies, i, Shrink) && FiresHere(s, elus, latencies, i)
  {
    var m := BeforeTick(k);
    forall j | m <= j < |elus| ensures Points(s, elus, latencies, j, Shrink) {
      CloseFrom(s.cfg.alpha, s.elu, elus, load, load - s.cfg.shrinkElu, k, j + 1);
      PointsIs(s, elus, latencies, j);
    }
    i := SteadyFires(s, elus, latencies, m, Shrink);
  }

  /** There always is such a `k`, in closed form. */
  lemma ResponseTime(s: State, elus: seq<real>, latencies: seq<real>, load: real) returns (i: nat)
    requires Accepted(s.cfg) && AtLeast(elus, load) && load > s.cfg.shrinkElu && |elus| == |latencies|
    requires |elus| == Ticks(s.cfg.alpha, Gap(s.elu, load), load - s.cfg.shrinkElu) - 1 + s.cfg.debounceTicks
    ensures i < |elus| && Points(s, elus, latencies, i, Shrink) && FiresHere(s, elus, latencies, i)
  {
    TicksSuffice(s.cfg.alpha, Gap(s.elu, load), load - s.cfg.shrinkElu);
    i := SustainedLoadShrinks(s, elus, latencies, load, Ticks(s.cfg.alpha, Gap(s.elu, load), load - s.cfg.shrinkElu));
  }

  /** Latency alone shrinks just as well, at whatever utilization. */
  lemma SustainedLatencyShrinks(s: State, elus: seq<real>, latencies: seq<real>, load: real, k: nat) returns (i: nat)
    requires Accepted(s.cfg) && AtLeast(latencies, load)
    requires Remaining(s.cfg.alpha, Gap(s.latency, load), k) < load - s.cfg.shrinkLatency
    requires |elus| == |latencies| == BeforeTick(k) + s.cfg.debounceTicks
    ensures i < |elus| && Points(s, elus, latencies, i, Shrink) && FiresHere(s, elus, latencies, i)
  {
    var m := BeforeTick(k);
    forall j | m <= j < |elus| ensures Points(s, elus, latencies, j, Shrink) {
      CloseFrom(s.cfg.alpha, s.latency, latencies, load, load - s.cfg.shrinkLatency, k, j + 1);
      PointsIs(s, elus, latencies, j);
    }
    i := SteadyFires(s, elus, latencies, m, Shrink);
  }

  /** There is such a `k` here too. */
  lemma LatencyResponseTime(s: State, elus: seq<real>, latencies: seq<real>, load: real) returns (i: nat)
    requires Accepted(s.cfg) && AtLeast(latencies, load) && load > s.cfg.shrinkLatency && |elus| == |latencies|
    requires |elus| == Ticks(s.cfg.alpha, Gap(s.latency, load), load - s.cfg.shrinkLatency) - 1 + s.cfg.debounceTicks
    ensures i < |elus| && Points(s, elus, latencies, i, Shrink) && FiresHere(s, elus, latencies, i)
  {
    var k := Ticks(s.cfg.alpha, Gap(s.latency, load), load - s.cfg.shrinkLatency);
    TicksSuffice(s.cfg.alpha, Gap(s.latency, load), load - s.cfg.shrinkLatency);
    i := SustainedLatencyShrinks(s, elus, latencies, load, k);
  }

  // ---- What the ticks start, and what the size is ----

  /** The directions of the ticks so far. */
  function Directions(s: State, elus: seq<real>, latencies: seq<real>): (dirs: seq<Direction>)
    requires |elus| == |latencies|
    ensures |dirs| == |elus|
  {
    if elus == [] then []
    else
      var n := |elus| - 1;
      Directions(s, elus[..n], latencies[..n]) + [Direct(Watched(s, elus[..n], latencies[..n]), elus[n], latencies[n])]
  }

  lemma {:induction false} WatchedCounts(cfg: Config, elus: seq<real>, latencies: seq<real>)
    requires |elus| == |latencies|
    ensures var t := Watched(Init(cfg), elus, latencies);
      t.cfg == cfg && t.debounce == NoteAll(Directions(Init(cfg), elus, latencies), cfg.debounceTicks)
    decreases |elus|
  {
    if elus != [] {
      var n := |elus| - 1;
      WatchedCounts(cfg, elus[..n], latencies[..n]);
      assert Directions(Init(cfg), elus, latencies)[..n] == Directions(Init(cfg), elus[..n], latencies[..n]);
    }
  }

  /**
   * When a resize starts: the last of these ticks starts one if and only if the
   * run of equal directions it ends has a length divisible by the threshold,
   * resizing is enabled, and it is a grow below the ceiling or a shrink above
   * the floor; and then one of that kind.
   */
  lemma StartsIff(cfg: Config, elus: seq<real>, latencies: seq<real>)
    requires cfg.debounceTicks >= 1 && |elus| == |latencies| > 0
    ensures var n := |elus| - 1; var dirs := Directions(Init(cfg), elus, latencies);
      var s, t := Watched(Init(cfg), elus[..n], latencies[..n]), Watched(Init(cfg), elus, latencies);
      && t.effective == s.effective
      && (t.pending == Aged(s.pending) || t.pending == Aged(s.pending) + [Resize(dirs[n], 0)])
      && (t.pending == Aged(s.pending) + [Resize(dirs[n], 0)] <==>
            && Streak(dirs) % cfg.debounceTicks == 0 && cfg.enabled
            && ((dirs[n] == Grow && s.effective < cfg.maxWorkers)
                || (dirs[n] == Shrink && s.effective > cfg.minWorkers)))
  {
    var n := |elus| - 1;
    var dirs := Directions(Init(cfg), elus, latencies);
    WatchedCounts(cfg, elus, latencies);
    WatchedCounts(cfg, elus[..n], latencies[..n]);
    assert dirs[..n] == Directions(Init(cfg), elus[..n], latencies[..n]);
    FiresIffStreak(dirs, cfg.debounceTicks);
  }

  /** The resizes of this kind that came back with a worker. */
  function Done(s: State, ops: seq<Op>, kind: Direction): nat
    decreases |ops|
  {
    if ops == [] then 0
    else
      var op := ops[0];
      Done(Step(s, op), ops[1..], kind)
      + (if op.OpSettle? && op.ok && op.index < |s.pending| && s.pending[op.index].kind == kind then 1 else 0)
  }

  ghost predicate KindsOnly(s: State) {
    forall r :: r in s.pending ==> r.kind == Grow || r.kind == Shrink
  }

  lemma KindsStep(s: State, op: Op)
    requires KindsOnly(s)
    ensures KindsOnly(Step(s, op))
  {
    match op
    case OpTick(elu, latency) =>
      forall r | r in Tick(s, elu, latency).pending ensures r.kind == Grow || r.kind == Shrink {
        if r in Aged(s.pending) {
          var i :| 0 <= i < |s.pending| && Aged(s.pending)[i] == r;
          assert s.pending[i] in s.pending;
        }
      }
    case OpSettle(k, ok) =>
      forall r | r in Settle(s, k, ok).pending ensures r in s.pending {
      }
  }

  /** The size is what it was plus the grows that came back less the shrinks that did; failures count for nothing. */
  lemma {:induction false} SizeTells(s: State, ops: seq<Op>)
    requires KindsOnly(s)
    ensures Run(s, ops).effective == s.effective + Done(s, ops, Grow) - Done(s, ops, Shrink)
    decreases |ops|
  {
    if ops != [] {
      KindsStep(s, ops[0]);
      SizeTells(Step(s, ops[0]), ops[1..]);
      if ops[0].OpSettle? && ops[0].index < |s.pending| {
        assert s.pending[ops[0].index] in s.pending;
      }
    }
  }

  /** The thresholds leave a dead zone, or at least do not overlap. */
  predicate Ordered(cfg: Config) { cfg.growElu <= cfg.shrinkElu && cfg.growLatency <= cfg.shrinkLatency }

  /** And growth needs both signals: with both below their thresholds for long enough a grow fires. */
  lemma SustainedIdleGrows(s: State, elus: seq<real>, latencies: seq<real>, elu: real, latency: real, k: nat)
    returns (i: nat)
    requires Accepted(s.cfg) && Ordered(s.cfg) && AtMostAll(elus, elu) && AtMostAll(latencies, latency)
    requires Remaining(s.cfg.alpha, Gap(Negated(s.elu), -elu), k) < s.cfg.growElu - elu
    requires Remaining(s.cfg.alpha, Gap(Negated(s.latency), -latency), k) < s.cfg.growLatency - latency
    requires |elus| == |latencies| == BeforeTick(k) + s.cfg.debounceTicks
    ensures i < |elus| && Points(s, elus, latencies, i, Grow) && FiresHere(s, elus, latencies, i)
  {
    var m := BeforeTick(k);
    forall j | m <= j < |elus| ensures Points(s, elus, latencies, j, Grow) {
      CloseFromAbove(s.cfg.alpha, s.elu, elus, elu, s.cfg.growElu - elu, k, j + 1);
      CloseFromAbove(s.cfg.alpha, s.latency, latencies, latency, s.cfg.growLatency - latency, k, j + 1);
      PointsIs(s, elus, latencies, j);
    }
    i := SteadyFires(s, elus, latencies, m, Grow);
  }

  // ---- The classes ----

  class Ewma {
    const alpha: real
    var average: Option<real>

    constructor (alpha: real)
      requires 0.0 < alpha < 1.0
      ensures this.alpha == alpha && average == None
    {
      this.alpha := alpha;
      average := None;
    }

    method Update(sample: real)
      modifies this
      ensures average == Some(Smooth(alpha, old(average), sample))
    {
      if average.None? {
        average := Some(sample);
      } else {
        average := Some(alpha * sample + (1.0 - alpha) * average.value);
      }
    }
  }

  class DebounceCounter {
    const threshold: int
    var count: nat
    var direction: Option<Direction>

    ghost function Abs(): Debounce
      reads this
    {
      Debounce(count, direction)
    }

    constructor (threshold: int)
      requires threshold >= 1
      ensures this.threshold == threshold && Abs() == Debounce(0, None)
    {
      this.threshold := threshold;
      count, direction := 0, None;
    }

    /** Returns whether the listeners are called. */
    method Note(dir: Direction) returns (fired: bool)
      modifies this
      ensures Abs() == Noted(old(Abs()), dir, threshold)
      ensures fired == Fires(old(Abs()), dir, threshold)
    {
      if direction != Some(dir) {
        direction := Some(dir);
        count := 1;
      } else {
        count := count + 1;
      }
      fired := count >= threshold;
      if fired {
        count := 0;
      }
    }
  }

  class AdaptiveController {
    const cfg: Config
    const eluEwma: Ewma
    const latencyEwma: Ewma
    const debounce: DebounceCounter
    var effectiveWorkers: int
    var pending: seq<Resize>

    ghost predicate Valid()
      reads this, eluEwma, latencyEwma, debounce
    {
      && eluEwma != latencyEwma && Accepted(cfg)
      && eluEwma.alpha == latencyEwma.alpha == cfg.alpha && debounce.threshold == cfg.debounceTicks
    }

    ghost function Abs(): State
      reads this, eluEwma, latencyEwma, debounce
    {
      State(cfg, eluEwma.average, latencyEwma.average, debounce.Abs(), effectiveWorkers, pending)
    }

    constructor (cfg: Config)
      requires Accepted(cfg)
      ensures Valid() && Abs() == Init(cfg) && fresh(eluEwma) && fresh(latencyEwma) && fresh(debounce)
    {
      this.cfg := cfg;
      eluEwma := new Ewma(cfg.alpha);
      latencyEwma := new Ewma(cfg.alpha);
      debounce := new DebounceCounter(cfg.debounceTicks);
      effectiveWorkers, pending := cfg.initialWorkers, [];
    }

    /** The resize that the fire listener starts is under way when this returns. */
    method TickOnce(elu: real, latency: real)
      requires Valid()
      modifies this, eluEwma, latencyEwma, debounce
      ensures Valid() && Abs() == Tick(old(Abs()), elu, latency)
    {
      eluEwma.Update(elu);
      latencyEwma.Update(latency);
      var dir := Classify(cfg, eluEwma.average, latencyEwma.average);
      var fired := debounce.Note(dir);
      pending := Aged(pending);
      if fired && cfg.enabled {
        if dir == Grow && effectiveWorkers < cfg.maxWorkers {
          pending := pending + [Resize(Grow, 0)];
        } else if dir == Shrink && effectiveWorkers > cfg.minWorkers {
          pending := pending + [Resize(Shrink, 0)];
        }
      }
    }

    /** The callback of a resize settles; `ok` tells that it returned a worker id. */
    method ResizeSettled(index: nat, ok: bool)
      requires Valid() && index < |pending|
      modifies this
      ensures Valid() && Abs() == Settle(old(Abs()), index, ok)
    {
      var r := pending[index];
      pending := pending[..index] + pending[index + 1..];
      if ok {
        if r.kind == Grow {
          effectiveWorkers := effectiveWorkers + 1;
        } else {
          effectiveWorkers := effectiveWorkers - 1;
        }
      }
    }
  }

  /** The factory: it throws on a configuration that it does not accept. */
  method CreateAdaptiveController(cfg: Config) returns (r: Option<AdaptiveController>)
    ensures r.Some? <==> Accepted(cfg)
    ensures r.Some? ==> fresh(r.value) && r.value.Valid() && r.value.Abs() == Init(cfg)
  {
    if cfg.minWorkers < 1 || cfg.maxWorkers < 1 || cfg.minWorkers > cfg.maxWorkers {
      return None;
    }
    if cfg.alpha <= 0.0 || cfg.alpha >= 1.0 || cfg.debounceTicks < 1 {
      return None;
    }
    var c := new AdaptiveController(cfg);
    r := Some(c);
  }
}
