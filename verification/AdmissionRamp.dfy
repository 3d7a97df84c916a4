/**
 The load ramp and the pacing of requests, as functions of what the loop observed
 (services/ops-console/src/admission-load.ts).
 */
module AdmissionRamp {
  import opened Wrappers

  datatype Options = Options(
    initialRps: int, rampStepRps: int, rampIntervalMs: int, maximumRps: int,
    failureThreshold: real, failureConfirmations: int, minimumSamples: int,
    metricWindowMs: int, safetyTtlMs: int, endpoint: Url, requestTimeoutMs: int)

  /** A parsed address, or text that is none. */
  datatype Url = Malformed | Url(protocol: string, hostname: string, username: string, password: string)

  predicate Within(value: int, minimum: int, maximum: int) {
    minimum <= value <= maximum
  }

  /** What the constructor lets through. */
  predicate Accepts(o: Options) {
    && Within(o.initialRps, 1, 1000) && Within(o.rampStepRps, 1, 1000) && Within(o.rampIntervalMs, 500, 60000)
    && Within(o.maximumRps, o.initialRps, 5000) && Within(o.failureConfirmations, 1, 10)
    && Within(o.minimumSamples, 1, 100000) && Within(o.metricWindowMs, 1000, 120000)
    && Within(o.safetyTtlMs, 10000, 1800000)
    && Within(o.requestTimeoutMs, 100, 30000)
    && 0.0 < o.failureThreshold < 1.0
    && o.endpoint.Url? && o.endpoint.protocol in {"http:", "https:"} && o.endpoint.hostname != ""
    && o.endpoint.username == "" && o.endpoint.password == ""
  }

  /** The bounds of every option, and an address without credentials. */
  ghost predicate InBounds(o: Options) {
    && 1 <= o.initialRps <= 1000 && 1 <= o.rampStepRps <= 1000 && 500 <= o.rampIntervalMs <= 60000
    && o.initialRps <= o.maximumRps <= 5000 && 1 <= o.failureConfirmations <= 10
    && 1 <= o.minimumSamples <= 100000 && 1000 <= o.metricWindowMs <= 120000
    && 10000 <= o.safetyTtlMs <= 1800000 && 100 <= o.requestTimeoutMs <= 30000
    && 0.0 < o.failureThreshold && o.failureThreshold < 1.0
    && o.endpoint.Url? && (o.endpoint.protocol == "http:" || o.endpoint.protocol == "https:")
    && |o.endpoint.hostname| > 0 && |o.endpoint.username| == 0 && |o.endpoint.password| == 0
  }

  type Accepted = o: Options | Accepts(o)
    witness Options(1, 1, 500, 1, 0.5, 1, 1, 1000, 10000, Url("http:", "localhost", "", ""), 100)

  // --- the ramp -------------------------------------------------------------------------

  datatype Reason = FailureThreshold | MaximumLoad

  /** The ramp is over once it has a reason. */
  datatype Ramp = Ramp(target: int, consecutive: nat, reason: Option<Reason>)

  function Evaluate(r: Ramp, breached: bool, o: Options): Ramp {
    if breached then
      Ramp(r.target, r.consecutive + 1,
           if r.consecutive + 1 >= o.failureConfirmations then Some(FailureThreshold) else None)
    else if r.target >= o.maximumRps then Ramp(r.target, 0, Some(MaximumLoad))
    else Ramp(if r.target + o.rampStepRps <= o.maximumRps then r.target + o.rampStepRps else o.maximumRps, 0, None)
  }

  /** The ramp after some effective evaluations; once over it stays as it is. */
  function RampAfter(o: Options, breaches: seq<bool>): Ramp
    decreases |breaches|
  {
    if breaches == [] then Ramp(o.initialRps, 0, None)
    else
      var r := RampAfter(o, breaches[..|breaches| - 1]);
      if r.reason.Some? then r else Evaluate(r, breaches[|breaches| - 1], o)
  }

  /** Steps from a target to the maximum, rounded up. */
  function StepsLeft(o: Options, target: int): (n: nat)
    requires Accepts(o) && target <= o.maximumRps
    ensures n == 0 <==> target == o.maximumRps
    decreases o.maximumRps - target
  {
    if target == o.maximumRps then 0
    else if target + o.rampStepRps >= o.maximumRps then 1
    else 1 + StepsLeft(o, target + o.rampStepRps)
  }

  lemma Times(n: int, size: int)
    ensures (n + 1) * size == n * size + size
  {
  }

  lemma {:induction false} StepsLeftIsCeiling(o: Options, target: int)
    requires Accepts(o) && target <= o.maximumRps
    ensures (StepsLeft(o, target) - 1) * o.rampStepRps < o.maximumRps - target <= StepsLeft(o, target) * o.rampStepRps
    decreases o.maximumRps - target
  {
    var n := StepsLeft(o, target);
    if target + o.rampStepRps < o.maximumRps {
      StepsLeftIsCeiling(o, target + o.rampStepRps);
      Times(n - 1, o.rampStepRps);
      Times(n - 2, o.rampStepRps);
    }
  }

  /** The most effective evaluations a ramp can take. */
  function Bound(o: Options): int
    requires Accepts(o)
  {
    (StepsLeft(o, o.initialRps) + 1) * o.failureConfirmations
  }

  /** While the ramp lasts, every evaluation uses up some of the bound, whatever it found. */
  lemma {:induction false} RampSpendsBound(o: Options, breaches: seq<bool>)
    requires Accepts(o)
    ensures var r := RampAfter(o, breaches);
            && o.initialRps <= r.target <= o.maximumRps
            && (r.reason == None ==>
                  && r.consecutive < o.failureConfirmations
                  && |breaches| + StepsLeft(o, r.target) * o.failureConfirmations
                     + o.failureConfirmations - r.consecutive <= Bound(o))
    decreases |breaches|
  {
    if breaches == [] {
      Times(StepsLeft(o, o.initialRps), o.failureConfirmations);
    } else {
      RampSpendsBound(o, breaches[..|breaches| - 1]);
      var r, r' := RampAfter(o, breaches[..|breaches| - 1]), RampAfter(o, breaches);
      if r.target < r'.target {
        assert StepsLeft(o, r.target) == StepsLeft(o, r'.target) + 1;
        Times(StepsLeft(o, r'.target), o.failureConfirmations);
      }
    }
  }

  /** Whatever the failure pattern, the ramp is over after Bound(o) effective evaluations. */
  lemma RampEnds(o: Options, breaches: seq<bool>)
    requires Accepts(o) && |breaches| >= Bound(o)
    ensures RampAfter(o, breaches).reason.Some?
  {
    RampSpendsBound(o, breaches);
    var r := RampAfter(o, breaches);
    assert StepsLeft(o, r.target) * o.failureConfirmations >= 0;
  }

  lemma BoundIsPositive(o: Options)
    requires Accepts(o)
    ensures Bound(o) >= 1
  {
    Times(StepsLeft(o, o.initialRps), o.failureConfirmations);
  }

  lemma RampingIsShort(o: Options, breaches: seq<bool>)
    requires Accepts(o) && RampAfter(o, breaches).reason == None
    ensures |breaches| < Bound(o)
  {
    if |breaches| >= Bound(o) {
      RampEnds(o, breaches);
      assert false;
    }
  }

  lemma EvaluationsAreBounded(o: Options, breaches: seq<bool>)
    requires Accepts(o) && (breaches != [] ==> RampAfter(o, breaches[..|breaches| - 1]).reason == None)
    ensures |breaches| <= Bound(o)
    ensures |breaches| == Bound(o) ==> RampAfter(o, breaches).reason.Some?
  {
    if breaches == [] {
      BoundIsPositive(o);
    } else {
      RampingIsShort(o, breaches[..|breaches| - 1]);
      if |breaches| == Bound(o) {
        RampEnds(o, breaches);
      }
    }
  }

  lemma {:induction false} TargetNeverFalls(o: Options, breaches: seq<bool>, i: nat)
    requires Accepts(o) && i <= |breaches|
    ensures RampAfter(o, breaches[..i]).target <= RampAfter(o, breaches).target <= o.maximumRps
    decreases |breaches|
  {
    RampSpendsBound(o, breaches);
    if i == |breaches| {
      assert breaches[..i] == breaches;
    } else {
      var before := breaches[..|breaches| - 1];
      assert before[..i] == breaches[..i];
      TargetNeverFalls(o, before, i);
    }
  }

  /** The slowest way up: one window short of a confirmed failure at every level. */
  function Slowest(o: Options, level: nat, j: nat): seq<bool>
    requires Accepts(o)
    decreases level, j
  {
    if j > 0 then Slowest(o, level, j - 1) + [true]
    else if level > 0 then Slowest(o, level - 1, o.failureConfirmations - 1) + [false]
    else []
  }

  lemma {:induction false} SlowestLength(o: Options, level: nat, j: nat)
    requires Accepts(o) && j < o.failureConfirmations
    ensures |Slowest(o, level, j)| == level * o.failureConfirmations + j
    decreases level, j
  {
    if j > 0 {
      SlowestLength(o, level, j - 1);
    } else if level > 0 {
      SlowestLength(o, level - 1, o.failureConfirmations - 1);
      Times(level - 1, o.failureConfirmations);
    }
  }

  /** A window that held below the maximum takes one of the steps left. */
  lemma StepUp(o: Options, r: Ramp)
    requires Accepts(o) && o.initialRps <= r.target < o.maximumRps
    ensures var r' := Evaluate(r, false, o);
            && r'.consecutive == 0 && r'.reason == None && r.target < r'.target <= o.maximumRps
            && StepsLeft(o, r'.target) == StepsLeft(o, r.target) - 1
  {
  }

  lemma {:induction false} SlowestClimbs(o: Options, level: nat, j: nat)
    requires Accepts(o) && j < o.failureConfirmations && level <= StepsLeft(o, o.initialRps)
    ensures var r := RampAfter(o, Slowest(o, level, j));
            && r.consecutive == j && r.reason == None && o.initialRps <= r.target <= o.maximumRps
            && StepsLeft(o, r.target) == StepsLeft(o, o.initialRps) - level
    decreases level, j
  {
    if j > 0 {
      SlowestClimbs(o, level, j - 1);
      RampAfterOneMore(o, Slowest(o, level, j - 1), true);
    } else if level > 0 {
      var before := Slowest(o, level - 1, o.failureConfirmations - 1);
      SlowestClimbs(o, level - 1, o.failureConfirmations - 1);
      RampAfterOneMore(o, before, false);
      StepUp(o, RampAfter(o, before));
    }
  }

  lemma RampAfterOneMore(o: Options, breaches: seq<bool>, breached: bool)
    requires RampAfter(o, breaches).reason == None
    ensures RampAfter(o, breaches + [breached]) == Evaluate(RampAfter(o, breaches), breached, o)
  {
    var longer := breaches + [breached];
    assert longer[..|longer| - 1] == breaches;
  }

  /** The bound is exact: one evaluation less may not be enough. */
  lemma RampMayNeedBound(o: Options) returns (breaches: seq<bool>)
    requires Accepts(o)
    ensures |breaches| == Bound(o) - 1 && RampAfter(o, breaches).reason == None
  {
    var levels, confirmations := StepsLeft(o, o.initialRps), o.failureConfirmations;
    breaches := Slowest(o, levels, confirmations - 1);
    SlowestClimbs(o, levels, confirmations - 1);
    SlowestLength(o, levels, confirmations - 1);
    Times(levels, confirmations);
  }

  ghost predicate LastBreached(breaches: seq<bool>, n: nat) {
    n <= |breaches| && forall k | |breaches| - n <= k < |breaches| :: breaches[k]
  }

  lemma {:induction false} ConsecutiveIsTrailing(o: Options, breaches: seq<bool>)
    requires Accepts(o) && RampAfter(o, breaches).reason == None
    ensures var c := RampAfter(o, breaches).consecutive; LastBreached(breaches, c) && !LastBreached(breaches, c + 1)
    decreases |breaches|
  {
    if breaches != [] {
      var before := breaches[..|breaches| - 1];
      ConsecutiveIsTrailing(o, before);
      var c := RampAfter(o, before).consecutive;
      if breaches[|breaches| - 1] && c < |before| {
        assert !breaches[|before| - 1 - c] by {
          var k :| |before| - (c + 1) <= k < |before| && !before[k];
          assert k == |before| - 1 - c;
        }
      }
    }
  }

  lemma LastBreachedOneMore(before: seq<bool>, breached: bool, n: nat)
    requires n > 0
    ensures LastBreached(before + [breached], n) <==> breached && LastBreached(before, n - 1)
  {
    var breaches := before + [breached];
    if LastBreached(breaches, n) {
      assert breaches[|before|];
      forall k | |before| - (n - 1) <= k < |before|
        ensures before[k]
      {
        assert breaches[k];
      }
    }
  }

  lemma LastBreachedShorter(breaches: seq<bool>, n: nat, m: nat)
    requires LastBreached(breaches, n) && m <= n
    ensures LastBreached(breaches, m)
  {
  }

  /** A ramp ends as a confirmed failure exactly when its last windows, as many as there are
      confirmations, all breached; otherwise it ends at the maximum, on a window that held. */
  lemma EndsForItsReason(o: Options, before: seq<bool>, breached: bool)
    requires Accepts(o) && RampAfter(o, before).reason == None
    ensures var r := RampAfter(o, before + [breached]);
            && (r.reason == Some(FailureThreshold) <==> LastBreached(before + [breached], o.failureConfirmations))
            && (r.reason == Some(MaximumLoad) <==> !breached && RampAfter(o, before).target == o.maximumRps)
  {
    var c := RampAfter(o, before).consecutive;
    ConsecutiveIsTrailing(o, before);
    RampSpendsBound(o, before);
    RampAfterOneMore(o, before, breached);
    LastBreachedOneMore(before, breached, o.failureConfirmations);
    if LastBreached(before, o.failureConfirmations - 1) && c + 1 < o.failureConfirmations {
      LastBreachedShorter(before, o.failureConfirmations - 1, c + 1);
      assert false;
    }
  }

  // --- pacing --------------------------------------------------------------------------------

  const LOOP_INTERVAL_MS := 100

  /** One turn of the loop: the clock it read and the target it had. */
  datatype Tick = Tick(now: int, target: nat)

  datatype Pacer = Pacer(carry: real, previous: int)

  function Elapsed(p: Pacer, now: int): (ms: int)
    ensures ms >= 1
  {
    if now - p.previous >= 1 then now - p.previous else 1
  }

  predicate Stalled(elapsed: int) {
    2 * elapsed > 5 * LOOP_INTERVAL_MS
  }

  function EffectiveElapsed(p: Pacer, now: int): (ms: int)
    ensures 1 <= ms <= 250
  {
    if Stalled(Elapsed(p, now)) then LOOP_INTERVAL_MS else Elapsed(p, now)
  }

  /** The tenth of a second's worth of requests, rounded up. */
  function PerTickLimit(target: nat): (n: nat)
    ensures if target == 0 then n == 1 else 10 * (n - 1) < target <= 10 * n
  {
    if target == 0 then 1 else (target * LOOP_INTERVAL_MS + 999) / 1000
  }

  /** What one tick entitles the loop to. */
  function Allowance(p: Pacer, t: Tick): (r: real)
    ensures r >= 0.0
  {
    (t.target * EffectiveElapsed(p, t.now)) as real / 1000.0
  }

  function Credit(p: Pacer, t: Tick): real {
    var credit := (if Stalled(Elapsed(p, t.now)) then 0.0 else p.carry) + Allowance(p, t);
    if credit <= PerTickLimit(t.target) as real then credit else PerTickLimit(t.target) as real
  }

  /** How many requests a tick issues. */
  function Count(p: Pacer, t: Tick): int {
    Credit(p, t).Floor
  }

  function Advance(p: Pacer, t: Tick): Pacer {
    Pacer(Credit(p, t) - Count(p, t) as real, t.now)
  }

  function PacerAfter(start: int, ticks: seq<Tick>): Pacer
    decreases |ticks|
  {
    if ticks == [] then Pacer(0.0, start)
    else Advance(PacerAfter(start, ticks[..|ticks| - 1]), ticks[|ticks| - 1])
  }

  /** Requests issued over a run. */
  function IssuedBy(start: int, ticks: seq<Tick>): int
    decreases |ticks|
  {
    if ticks == [] then 0
    else
      var before := ticks[..|ticks| - 1];
      IssuedBy(start, before) + Count(PacerAfter(start, before), ticks[|ticks| - 1])
  }

  /** The sum over all ticks of target times effective elapsed time. */
  function Budget(start: int, ticks: seq<Tick>): real
    decreases |ticks|
  {
    if ticks == [] then 0.0
    else
      var before := ticks[..|ticks| - 1];
      Budget(start, before) + Allowance(PacerAfter(start, before), ticks[|ticks| - 1])
  }

  /** A tick gives nothing up: no stall threw a carry away and the cap did not bite. */
  predicate Lossless(p: Pacer, t: Tick) {
    && (Stalled(Elapsed(p, t.now)) ==> p.carry == 0.0)
    && p.carry + Allowance(p, t) <= PerTickLimit(t.target) as real
  }

  ghost predicate AllLossless(start: int, ticks: seq<Tick>) {
    forall k | 0 <= k < |ticks| :: Lossless(PacerAfter(start, ticks[..k]), ticks[k])
  }

  lemma TickIsPaced(p: Pacer, t: Tick)
    requires 0.0 <= p.carry < 1.0
    ensures 0.0 <= Advance(p, t).carry < 1.0
    ensures 0 <= Count(p, t) <= PerTickLimit(t.target)
    ensures Count(p, t) as real + Advance(p, t).carry <= p.carry + Allowance(p, t)
    ensures Count(p, t) as real + Advance(p, t).carry == p.carry + Allowance(p, t) <==> Lossless(p, t)
  {
  }

  lemma AllLosslessOneMore(start: int, before: seq<Tick>, t: Tick)
    ensures AllLossless(start, before + [t]) <==> AllLossless(start, before) && Lossless(PacerAfter(start, before), t)
  {
    var ticks := before + [t];
    assert ticks[..|before|] == before;
    forall k | 0 <= k < |before|
      ensures ticks[..k] == before[..k] && ticks[k] == before[k]
    {
    }
    if AllLossless(start, ticks) {
      forall k | 0 <= k < |before|
        ensures Lossless(PacerAfter(start, before[..k]), before[k])
      {
        assert Lossless(PacerAfter(start, ticks[..k]), ticks[k]);
      }
      assert Lossless(PacerAfter(start, ticks[..|before|]), ticks[|before|]);
    }
  }

  /** What one more tick does to the sums. */
  lemma OneMoreIssue(issued: int, carry: real, budget: real, count: int, rest: real, allowance: real,
                     exact: bool, lossless: bool)
    requires issued >= 0 && count >= 0 && issued as real + carry <= budget
    requires issued as real + carry == budget <==> exact
    requires count as real + rest <= carry + allowance
    requires count as real + rest == carry + allowance <==> lossless
    ensures issued + count >= 0 && (issued + count) as real + rest <= budget + allowance
    ensures (issued + count) as real + rest == budget + allowance <==> exact && lossless
  {
  }

  /** One more tick, of all three. */
  lemma PacedOneMore(start: int, before: seq<Tick>, t: Tick)
    ensures var p, ticks := PacerAfter(start, before), before + [t];
            && PacerAfter(start, ticks) == Advance(p, t)
            && IssuedBy(start, ticks) == IssuedBy(start, before) + Count(p, t)
            && Budget(start, ticks) == Budget(start, before) + Allowance(p, t)
  {
    assert (before + [t])[..|before|] == before;
  }

  /** Over a run of any length and any stalls, requests never outrun the budget; they keep
      exactly to it, up to a carry below one, when and only when no tick gave anything up. */
  lemma {:induction false} IssuedWithinBudget(start: int, ticks: seq<Tick>)
    ensures 0.0 <= PacerAfter(start, ticks).carry < 1.0
    ensures IssuedBy(start, ticks) >= 0
    ensures IssuedBy(start, ticks) as real + PacerAfter(start, ticks).carry <= Budget(start, ticks)
    ensures IssuedBy(start, ticks) as real + PacerAfter(start, ticks).carry == Budget(start, ticks)
       <==> AllLossless(start, ticks)
    decreases |ticks|
  {
    if ticks != [] {
      var before, t := ticks[..|ticks| - 1], ticks[|ticks| - 1];
      var p := PacerAfter(start, before);
      assert ticks == before + [t];
      IssuedWithinBudget(start, before);
      TickIsPaced(p, t);
      AllLosslessOneMore(start, before, t);
      PacedOneMore(start, before, t);
      OneMoreIssue(IssuedBy(start, before), p.carry, Budget(start, before), Count(p, t), Advance(p, t).carry,
                   Allowance(p, t), AllLossless(start, before), Lossless(p, t));
    }
  }

  // --- the budget in requests per second and milliseconds -----------------------------------

  /** The milliseconds a tick counts for: the clock's difference, at least 1, and 100 when it
      exceeds 250. */
  ghost function Millis(previous: int, now: int): (ms: int)
    ensures ms == if now <= previous then 1 else if now - previous > 250 then 100 else now - previous
  {
    if now <= previous then 1 else if now - previous > 250 then 100 else now - previous
  }

  /** The clock before the k-th tick. */
  ghost function Before(start: int, ticks: seq<Tick>, k: nat): int
    requires k <= |ticks|
  {
    if k == 0 then start else ticks[k - 1].now
  }

  /** The sum over the ticks of target times milliseconds: thousandths of a request. */
  ghost function Owed(start: int, ticks: seq<Tick>): int
    decreases |ticks|
  {
    if ticks == [] then 0
    else
      var last := |ticks| - 1;
      Owed(start, ticks[..last]) + ticks[last].target * Millis(Before(start, ticks, last), ticks[last].now)
  }

  lemma PreviousIsBefore(start: int, ticks: seq<Tick>)
    ensures PacerAfter(start, ticks).previous == Before(start, ticks, |ticks|)
  {
  }

  lemma {:induction false} BudgetIsOwed(start: int, ticks: seq<Tick>)
    ensures 1000.0 * Budget(start, ticks) == Owed(start, ticks) as real
    decreases |ticks|
  {
    if ticks != [] {
      var before, t := ticks[..|ticks| - 1], ticks[|ticks| - 1];
      BudgetIsOwed(start, before);
      PreviousIsBefore(start, before);
      assert Before(start, ticks, |before|) == Before(start, before, |before|);
      var p := PacerAfter(start, before);
      assert EffectiveElapsed(p, t.now) == Millis(p.previous, t.now);
      assert 1000.0 * Allowance(p, t) == (t.target * EffectiveElapsed(p, t.now)) as real;
    }
  }

  /** The k-th tick did not stall, and no more was owed by then than a tick may issue. */
  ghost predicate KeptUpAt(start: int, ticks: seq<Tick>, k: nat)
    requires k < |ticks|
  {
    && ticks[k].now - Before(start, ticks, k) <= 250
    && Owed(start, ticks[..k + 1]) - 1000 * IssuedBy(start, ticks[..k]) <= 1000 * PerTickLimit(ticks[k].target)
  }

  ghost predicate KeepsUp(start: int, ticks: seq<Tick>) {
    forall k | 0 <= k < |ticks| :: KeptUpAt(start, ticks, k)
  }

  lemma KeptUpBefore(start: int, before: seq<Tick>, t: Tick, k: nat)
    requires k < |before|
    ensures KeptUpAt(start, before + [t], k) <==> KeptUpAt(start, before, k)
  {
    assert (before + [t])[..k] == before[..k] && (before + [t])[..k + 1] == before[..k + 1];
  }

  lemma KeptUpLast(start: int, before: seq<Tick>, t: Tick)
    requires KeptUpAt(start, before + [t], |before|)
    ensures t.now - Before(start, before, |before|) <= 250
    ensures Owed(start, before + [t]) - 1000 * IssuedBy(start, before) <= 1000 * PerTickLimit(t.target)
  {
    var ticks := before + [t];
    assert ticks[..|before|] == before && ticks[..|before| + 1] == ticks;
  }

  lemma {:induction false} KeepingUpLosesNothing(start: int, ticks: seq<Tick>)
    requires KeepsUp(start, ticks)
    ensures AllLossless(start, ticks)
    decreases |ticks|
  {
    if ticks != [] {
      var before, t := ticks[..|ticks| - 1], ticks[|ticks| - 1];
      assert ticks == before + [t];
      assert KeptUpAt(start, ticks, |before|);
      KeptUpLast(start, before, t);
      forall k | 0 <= k < |before|
        ensures KeptUpAt(start, before, k)
      {
        assert KeptUpAt(start, ticks, k);
        KeptUpBefore(start, before, t, k);
      }
      KeepingUpLosesNothing(start, before);
      AllLosslessOneMore(start, before, t);
      IssuedWithinBudget(start, before);
      PreviousIsBefore(start, before);
      BudgetIsOwed(start, ticks);
      assert Budget(start, ticks) == Budget(start, before) + Allowance(PacerAfter(start, before), t);
    }
  }

  /** In requests per second and milliseconds: never more is issued than was owed, and less
      than one request less if the loop kept up. */
  lemma IssuedIsOwed(start: int, ticks: seq<Tick>)
    ensures 1000 * IssuedBy(start, ticks) <= Owed(start, ticks)
    ensures KeepsUp(start, ticks) ==> 1000 * IssuedBy(start, ticks) > Owed(start, ticks) - 1000
  {
    IssuedWithinBudget(start, ticks);
    BudgetIsOwed(start, ticks);
    if KeepsUp(start, ticks) {
      KeepingUpLosesNothing(start, ticks);
    }
  }

  lemma OneMoreTick(start: int, ticks: seq<Tick>, t: Tick)
    ensures PacerAfter(start, ticks + [t]) == Advance(PacerAfter(start, ticks), t)
    ensures IssuedBy(start, ticks + [t]) == IssuedBy(start, ticks) + Count(PacerAfter(start, ticks), t)
    ensures 0 <= Count(PacerAfter(start, ticks), t) <= PerTickLimit(t.target)
  {
    assert (ticks + [t])[..|ticks|] == ticks;
    IssuedWithinBudget(start, ticks);
    TickIsPaced(PacerAfter(start, ticks), t);
  }

  // --- the failure window -----------------------------------------------------------------------

  datatype Sample = Sample(at: int, accepted: bool, rateLimited: bool)

  /** The samples no older than a moment. */
  function Since(samples: seq<Sample>, after: int): seq<Sample> {
    if samples == [] then []
    else (if samples[0].at >= after then [samples[0]] else []) + Since(samples[1..], after)
  }

  function AcceptedIn(samples: seq<Sample>): (n: nat)
    ensures n <= |samples|
  {
    if samples == [] then 0 else (if samples[0].accepted then 1 else 0) + AcceptedIn(samples[1..])
  }

  /** The window holds the samples no older than a moment, each as often as it was taken. */
  ghost predicate IsWindow(window: seq<Sample>, samples: seq<Sample>, after: int) {
    forall s :: multiset(window)[s] == if s.at >= after then multiset(samples)[s] else 0
  }

  lemma {:induction false} SinceIsWindow(samples: seq<Sample>, after: int)
    ensures IsWindow(Since(samples, after), samples, after)
  {
    if samples != [] {
      SinceIsWindow(samples[1..], after);
      var first := if samples[0].at >= after then [samples[0]] else [];
      assert samples == [samples[0]] + samples[1..];
      assert Since(samples, after) == first + Since(samples[1..], after);
    }
  }

  /** Where a window's failed admissions stand. */
  ghost function FailedAt(window: seq<Sample>): set<nat> {
    set k: nat | k < |window| && !window[k].accepted
  }

  /** Counting the accepted ones leaves the failed ones. */
  lemma {:induction false} FailedAreCounted(window: seq<Sample>)
    ensures |FailedAt(window)| == |window| - AcceptedIn(window)
    decreases |window|
  {
    if window != [] {
      var n := |window| - 1;
      var before, last := window[..n], window[n];
      FailedAreCounted(before);
      AcceptedInOneMore(before, last);
      assert window == before + [last];
      assert FailedAt(window) == if last.accepted then FailedAt(before) else FailedAt(before) + {n};
      assert n !in FailedAt(before);
    }
  }

  lemma {:induction false} AcceptedInOneMore(window: seq<Sample>, s: Sample)
    ensures AcceptedIn(window + [s]) == AcceptedIn(window) + (if s.accepted then 1 else 0)
  {
    if window != [] {
      assert (window + [s])[1..] == window[1..] + [s];
      AcceptedInOneMore(window[1..], s);
    }
  }

  /** A percentage with one decimal. */
  function ToFixed1(percent: real): real {
    (percent * 10.0 + 0.5).Floor as real / 10.0
  }

  function FailureRatePercent(window: seq<Sample>): real {
    if window == [] then 0.0
    else ToFixed1((|window| - AcceptedIn(window)) as real / |window| as real * 100.0)
  }

  predicate Breached(measured: seq<Sample>, counted: seq<Sample>, o: Options) {
    |counted| >= o.minimumSamples && FailureRatePercent(measured) >= o.failureThreshold * 100.0
  }

  /** Too few samples never count as a failure, and neither does a window in which nothing was
      measured. Otherwise the one-decimal rate decides like the exact share of failed
      admissions, up to a twentieth of a percent. */
  lemma BreachWrittenOut(measured: seq<Sample>, counted: seq<Sample>, o: Options)
    requires Accepts(o)
    ensures |counted| < o.minimumSamples ==> !Breached(measured, counted, o)
    ensures measured == [] ==> !Breached(measured, counted, o)
    ensures |counted| >= o.minimumSamples && measured != [] ==>
              var percent := |FailedAt(measured)| as real / |measured| as real * 100.0;
              && (percent >= o.failureThreshold * 100.0 + 0.05 ==> Breached(measured, counted, o))
              && (percent < o.failureThreshold * 100.0 - 0.05 ==> !Breached(measured, counted, o))
  {
    if measured != [] {
      FailedAreCounted(measured);
      var percent := (|measured| - AcceptedIn(measured)) as real / |measured| as real * 100.0;
      assert percent - 0.05 <= ToFixed1(percent) <= percent + 0.05;
    }
  }

  lemma {:induction false} SinceConcat(a: seq<Sample>, b: seq<Sample>, after: int)
    ensures Since(a + b, after) == Since(a, after) + Since(b, after)
  {
    if a == [] {
      assert a + b == b;
    } else {
      var first := if a[0].at >= after then [a[0]] else [];
      var whole := a + b;
      assert whole[0] == a[0] && whole[1..] == a[1..] + b;
      SinceConcat(a[1..], b, after);
      assert first + (Since(a[1..], after) + Since(b, after)) == (first + Since(a[1..], after)) + Since(b, after);
    }
  }

  lemma {:induction false} SinceNone(samples: seq<Sample>, after: int)
    requires forall s | s in samples :: s.at < after
    ensures Since(samples, after) == []
  {
    if samples != [] {
      SinceNone(samples[1..], after);
    }
  }

  /** Dropping samples older than a window does not change the window. */
  lemma TrimmedWindow(dropped: seq<Sample>, kept: seq<Sample>, after: int)
    requires forall s | s in dropped :: s.at < after
    ensures Since(dropped + kept, after) == Since(kept, after)
  {
    SinceConcat(dropped, kept, after);
    SinceNone(dropped, after);
  }
}
