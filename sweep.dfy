/** The simulated engine speed of canReadRpm (src/main.cpp): a triangle wave between two bounds. */
module RpmSweep {

  const SWEEP_INCREMENT_RPM := 25
  const SWEEP_START_RPM := 1000
  const SWEEP_STOP_RPM := 3000
  /** Calls from one bound to the other. */
  const HALF_PERIOD := 80
  /** Calls after which the sweep is back where it was. */
  const PERIOD := 160

  /** The two periods are written as literals, which keeps the solver's arithmetic on them
      cheap; this is how they follow from the sweep constants. */
  lemma PeriodsFromBounds()
    ensures HALF_PERIOD == (SWEEP_STOP_RPM - SWEEP_START_RPM) / SWEEP_INCREMENT_RPM
    ensures PERIOD == 2 * HALF_PERIOD
  {
  }

  /** The globals `currentRpm` and `step`. */
  datatype Sweep = Sweep(rpm: int, step: int)

  /** `currentRpm = sweepStartRpm` and the zero-initialised global `step`. */
  const INITIAL := Sweep(SWEEP_START_RPM, 0)

  /** One call: the direction is decided from the speed before the update, then applied. */
  function Next(s: Sweep): Sweep
  {
    var step :=
      if s.rpm >= SWEEP_STOP_RPM then -SWEEP_INCREMENT_RPM
      else if s.rpm <= SWEEP_START_RPM then SWEEP_INCREMENT_RPM
      else s.step;
    Sweep(s.rpm + step, step)
  }

  /** The state after k calls from the initial state. */
  function Iterate(k: nat): Sweep
  {
    if k == 0 then INITIAL else Next(Iterate(k - 1))
  }

  /** Position of call k >= 1 within its cycle. */
  function Phase(k: nat): (p: int)
    requires k >= 1
    ensures 1 <= p <= PERIOD
  {
    (k - 1) % PERIOD + 1
  }

  /** Closed form of the state after k calls: up by one increment per call for the first half
      of each cycle, down for the second. */
  function At(k: nat): Sweep
  {
    if k == 0 then INITIAL
    else
      var p := Phase(k);
      if p <= HALF_PERIOD then Sweep(SWEEP_START_RPM + SWEEP_INCREMENT_RPM * p, SWEEP_INCREMENT_RPM)
      else Sweep(SWEEP_STOP_RPM - SWEEP_INCREMENT_RPM * (p - HALF_PERIOD), -SWEEP_INCREMENT_RPM)
  }

  /** Quotient and remainder by the period are determined by any decomposition. */
  lemma DivModPeriod(n: int, q: int, r: int)
    requires 0 <= r < PERIOD && n == PERIOD * q + r
    ensures n / PERIOD == q && n % PERIOD == r
  {
  }

  /** The phase advances by one per call and wraps from the last position to the first. */
  lemma PhaseNext(k: nat)
    requires k >= 1
    ensures Phase(k + 1) == if Phase(k) < PERIOD then Phase(k) + 1 else 1
  {
    var q, r := (k - 1) / PERIOD, (k - 1) % PERIOD;
    if r < PERIOD - 1 {
      DivModPeriod(k, q, r + 1);
    } else {
      DivModPeriod(k, q + 1, 0);
    }
  }

  /** One call moves the closed form one position on. */
  lemma NextAt(k: nat)
    ensures Next(At(k)) == At(k + 1)
  {
    if k >= 1 {
      PhaseNext(k);
    }
  }

  /** The closed form is the iterated generator. */
  lemma {:induction false} IterateAt(k: nat)
    ensures Iterate(k) == At(k)
  {
    if k > 0 {
      IterateAt(k - 1);
      NextAt(k - 1);
    }
  }

  /** The speed stays within the sweep bounds on the increment grid; the step is zero only
      before the first call, and one increment up or down afterwards. */
  lemma AtInRange(k: nat)
    ensures SWEEP_START_RPM <= At(k).rpm <= SWEEP_STOP_RPM
    ensures (At(k).rpm - SWEEP_START_RPM) % SWEEP_INCREMENT_RPM == 0
    ensures At(k).step == 0 <==> k == 0
    ensures k > 0 ==> At(k).step == SWEEP_INCREMENT_RPM || At(k).step == -SWEEP_INCREMENT_RPM
  {
  }

  /** Each call changes the speed by exactly one increment, in the direction of the new step. */
  lemma AtMoves(k: nat)
    ensures At(k + 1).rpm == At(k).rpm + At(k + 1).step
    ensures At(k + 1).step == SWEEP_INCREMENT_RPM || At(k + 1).step == -SWEEP_INCREMENT_RPM
  {
    NextAt(k);
  }

  /** The direction changes exactly when the speed before the call is at a bound. */
  lemma TurnsExactlyAtBounds(k: nat)
    ensures At(k + 1).step != At(k).step <==> At(k).rpm == SWEEP_START_RPM || At(k).rpm == SWEEP_STOP_RPM
    ensures At(k).rpm == SWEEP_STOP_RPM ==> At(k + 1).step == -SWEEP_INCREMENT_RPM
    ensures At(k).rpm == SWEEP_START_RPM ==> At(k + 1).step == SWEEP_INCREMENT_RPM
  {
    NextAt(k);
  }

  /** The top is reached after the 80 calls up of every cycle, the bottom after the 80 down. */
  lemma ReachesBounds(k: nat)
    ensures At(k).rpm == SWEEP_STOP_RPM <==> k % PERIOD == HALF_PERIOD
    ensures At(k).rpm == SWEEP_START_RPM <==> k % PERIOD == 0
  {
    if k >= 1 {
      var p := Phase(k);
      assert k - 1 == PERIOD * ((k - 1) / PERIOD) + (p - 1);
      assert k % PERIOD == p % PERIOD;
    }
  }

  /** From the first call on, the state repeats every 160 calls ... */
  lemma Periodic(k: nat)
    requires k >= 1
    ensures Iterate(k + PERIOD) == Iterate(k)
  {
    IterateAt(k);
    IterateAt(k + PERIOD);
    DivModPeriod(k + PERIOD - 1, (k - 1) / PERIOD + 1, (k - 1) % PERIOD);
  }

  /** ... and not sooner. */
  lemma LeastPeriod(k: nat, j: nat)
    requires 0 < j < PERIOD
    ensures Iterate(k + j) != Iterate(k)
  {
    IterateAt(k);
    IterateAt(k + j);
    if k >= 1 {
      var p, q := Phase(k), Phase(k + j);
      assert k - 1 == PERIOD * ((k - 1) / PERIOD) + (p - 1);
      assert k + j - 1 == PERIOD * ((k + j - 1) / PERIOD) + (q - 1);
      assert p != q;
    }
  }
}
