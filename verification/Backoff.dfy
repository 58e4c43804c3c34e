/** Bounded exponential cooldowns. Durations are natural numbers of milliseconds. */
module Backoff {
  import opened Options

  const MAX_ROUTE_WAIT: nat := 86_400_000
  const MAX_PARSED_COOLDOWN: nat := 31_622_400_000
  const HEALTHY_ROUTE_STEP: nat := 250
  const RETRY_AFTER_MARGIN: nat := 250
  const BACKOFF_MAX_SHIFT: nat := 32
  const U128_MAX: nat := 0xFFFF_FFFF_FFFF_FFFF_FFFF_FFFF_FFFF_FFFF

  function Pow2(n: nat): (p: nat)
    ensures p >= 1
  {
    if n == 0 then 1 else 2 * Pow2(n - 1)
  }

  /** Deadlines never lie more than a day ahead, whatever the requested wait. */
  function Deadline(now: nat, wait: nat): nat {
    now + Min(wait, MAX_ROUTE_WAIT)
  }

  function CapCooldown(cooldown: nat, max: nat): nat {
    Max(Min(Min(cooldown, Min(max, MAX_ROUTE_WAIT)), MAX_PARSED_COOLDOWN), 1)
  }

  function RetryAfterFor(wait: nat): nat {
    wait + RETRY_AFTER_MARGIN
  }

  /** A duration ceiling brought into the range the router can use. */
  function Ceiling(max: nat): (c: nat)
    ensures 1 <= c <= MAX_ROUTE_WAIT
  {
    Max(Min(max, MAX_ROUTE_WAIT), 1)
  }

  function ClampUnit(jitter: real): (j: real)
    ensures 0.0 <= j <= 1.0
  {
    if jitter < 0.0 then 0.0 else if jitter > 1.0 then 1.0 else jitter
  }

  /** The doubling exponent: the attempt number or the streak, capped. */
  function Doublings(attempt: nat, streak: nat): nat {
    Min(Max(attempt - 1, streak), BACKOFF_MAX_SHIFT)
  }

  /** The ladder before jitter, in saturating 128-bit arithmetic. */
  function LadderBase(attempt: nat, initial: nat, ceiling: nat, streak: nat): nat {
    Min(Min(Max(initial, 1) * Pow2(Doublings(attempt, streak)), U128_MAX), ceiling)
  }

  function Jittered(base: nat, jitter: real): (v: nat)
  {
    var scaled := base as real * (1.0 + 0.5 * ClampUnit(jitter));
    JitterStretches(base, jitter);
    scaled.Floor
  }

  function BarrierDuration(attempt: nat, initial: nat, max: nat, hintCap: nat,
                           streak: nat, hint: Option<nat>, jitter: real): (cooldown: nat)
    ensures 1 <= cooldown <= MAX_ROUTE_WAIT
    ensures hint.None? ==> cooldown <= Max(max, 1)
  {
    match hint
    case Some(h) => Max(Min(h, Ceiling(hintCap)), 1)
    case None =>
      var ceiling := Ceiling(max);
      Max(Min(Jittered(LadderBase(attempt, initial, ceiling, streak), jitter), ceiling), 1)
  }

  // --- the ladder ---------------------------------------------------------

  lemma JitterStretches(base: nat, jitter: real)
    ensures base as real <= base as real * (1.0 + 0.5 * ClampUnit(jitter))
  {
    var extra := 0.5 * ClampUnit(jitter);
    assert base as real * extra >= 0.0;
    assert base as real * (1.0 + extra) == base as real + base as real * extra;
  }

  lemma JitterGrows(base: nat, base': nat, jitter: real, jitter': real)
    requires base <= base' && jitter <= jitter'
    ensures Jittered(base, jitter) <= Jittered(base', jitter')
  {
    var f, f' := 1.0 + 0.5 * ClampUnit(jitter), 1.0 + 0.5 * ClampUnit(jitter');
    assert f <= f';
    MulMonotone(base as real, base' as real, f, f');
  }

  lemma MulMonotone(a: real, b: real, x: real, y: real)
    requires 0.0 <= a <= b && 0.0 <= x <= y
    ensures a * x <= b * y
  {
    assert a * x <= a * y by { assert a * (y - x) >= 0.0; }
    assert a * y <= b * y by { assert (b - a) * y >= 0.0; }
  }

  lemma {:induction false} Pow2Grows(m: nat, n: nat)
    requires m <= n
    ensures Pow2(m) <= Pow2(n)
    decreases n - m
  {
    if m < n { Pow2Grows(m, n - 1); }
  }

  lemma Pow2At32()
    ensures Pow2(32) == 0x1_0000_0000
  {
    assert Pow2(8) == 256;
    assert Pow2(16) == 65536 by { assert Pow2(12) == 4096; }
    assert Pow2(24) == 16777216 by { assert Pow2(20) == 1048576; }
    assert Pow2(32) == 0x1_0000_0000 by { assert Pow2(28) == 268435456; }
  }

  lemma ScaledGrows(a: nat, p: nat, q: nat)
    requires p <= q
    ensures a * p <= a * q
  {
    assert a * (q - p) >= 0;
  }

  /** The exponent cap of 32 is unobservable: a doubling that long has already met every ceiling. */
  lemma LadderBaseClosedForm(attempt: nat, initial: nat, ceiling: nat, streak: nat)
    requires ceiling <= MAX_ROUTE_WAIT
    ensures LadderBase(attempt, initial, ceiling, streak)
         == Min(Max(initial, 1) * Pow2(Max(attempt - 1, streak)), ceiling)
  {
    var start, want := Max(initial, 1), Max(attempt - 1, streak);
    if want > BACKOFF_MAX_SHIFT {
      Pow2At32();
      Pow2Grows(32, want);
      ScaledGrows(start, 0x1_0000_0000, Pow2(want));
    }
  }

  /** Without a hint and at zero jitter the cooldown is the plain capped doubling, for every attempt and streak. */
  lemma LadderClosedForm(attempt: nat, initial: nat, max: nat, hintCap: nat, streak: nat, jitter: real)
    requires jitter <= 0.0
    ensures BarrierDuration(attempt, initial, max, hintCap, streak, None, jitter)
         == Min(Max(initial, 1) * Pow2(Max(attempt - 1, streak)), Ceiling(max))
  {
    LadderBaseClosedForm(attempt, initial, Ceiling(max), streak);
    var base := LadderBase(attempt, initial, Ceiling(max), streak);
    assert base as real * 1.0 == base as real;
    assert Jittered(base, jitter) == base;
    ScaledGrows(Max(initial, 1), 1, Pow2(Max(attempt - 1, streak)));
  }

  /** The ladder never falls as the attempt number, the streak or the jitter rises. */
  lemma LadderMonotone(attempt: nat, attempt': nat, initial: nat, max: nat, hintCap: nat,
                       streak: nat, streak': nat, jitter: real, jitter': real)
    requires attempt <= attempt' && streak <= streak' && jitter <= jitter'
    ensures BarrierDuration(attempt, initial, max, hintCap, streak, None, jitter)
         <= BarrierDuration(attempt', initial, max, hintCap, streak', None, jitter')
  {
    var ceiling, start := Ceiling(max), Max(initial, 1);
    var n, n' := Max(attempt - 1, streak), Max(attempt' - 1, streak');
    LadderBaseClosedForm(attempt, initial, ceiling, streak);
    LadderBaseClosedForm(attempt', initial, ceiling, streak');
    Pow2Grows(n, n');
    ScaledGrows(start, Pow2(n), Pow2(n'));
    JitterGrows(LadderBase(attempt, initial, ceiling, streak),
                LadderBase(attempt', initial, ceiling, streak'), jitter, jitter');
  }

  lemma HalfMore(base: nat)
    ensures Jittered(base, 1.0) == base * 3 / 2
  {
    var scaled := base as real * 1.5;
    assert ClampUnit(1.0) == 1.0 && 1.0 + 0.5 * 1.0 == 1.5;
    assert scaled * 2.0 == (base * 3) as real;
    assert (base * 3 / 2) as real <= scaled < (base * 3 / 2 + 1) as real;
  }

  /** Jitter only ever adds, and at most half: full jitter is one and a half times the plain doubling, still capped. */
  lemma JitterAddsUpToHalf(attempt: nat, initial: nat, max: nat, hintCap: nat, streak: nat, jitter: real)
    ensures var plain := Min(Max(initial, 1) * Pow2(Max(attempt - 1, streak)), Ceiling(max));
            var cooldown := BarrierDuration(attempt, initial, max, hintCap, streak, None, jitter);
            var most := if plain * 3 / 2 <= Ceiling(max) then plain * 3 / 2 else Ceiling(max);
      plain <= cooldown <= most && (jitter >= 1.0 ==> cooldown == most)
  {
    var base := LadderBase(attempt, initial, Ceiling(max), streak);
    LadderBaseClosedForm(attempt, initial, Ceiling(max), streak);
    ScaledGrows(Max(initial, 1), 1, Pow2(Max(attempt - 1, streak)));
    HalfMore(base);
    JitterClamped(base, jitter);
    assert base as real * 1.0 == base as real;
    assert Jittered(base, 0.0) == base;
  }

  lemma JitterClamped(base: nat, jitter: real)
    ensures Jittered(base, 0.0) <= Jittered(base, jitter) <= Jittered(base, 1.0)
    ensures jitter >= 1.0 ==> Jittered(base, jitter) == Jittered(base, 1.0)
  {
    assert ClampUnit(ClampUnit(jitter)) == ClampUnit(jitter);
    JitterGrows(base, base, 0.0, ClampUnit(jitter));
    JitterGrows(base, base, ClampUnit(jitter), 1.0);
  }

  /** With a hint the cooldown is the hint itself, kept between a millisecond and the hint cap; nothing else counts. */
  lemma HintDecides(attempt: nat, initial: nat, max: nat, hintCap: nat, streak: nat, hint: nat, jitter: real)
    ensures var cooldown := BarrierDuration(attempt, initial, max, hintCap, streak, Some(hint), jitter);
            var cap := if hintCap < 86_400_000 then hintCap else 86_400_000;
      cooldown == if hint == 0 || cap == 0 then 1 else if hint <= cap then hint else cap
  {
  }

  /** A capped cooldown, in plain comparisons: never nothing, and never beyond a day or the configured cap. */
  lemma CapIsPlain(cooldown: nat, max: nat)
    ensures var cap := if max < 86_400_000 then max else 86_400_000;
      CapCooldown(cooldown, max) == if cooldown == 0 || cap == 0 then 1 else if cooldown <= cap then cooldown else cap
  {
  }
}
