/** How much brain outage the renewal job survives (`RenewFlow.Run` and `certRemaining` in
    `internal/auth/flows.go`, schedule and threshold in the chart's values).

    The job runs every `period`.  A run skips while the certificate has more than `before` left, and
    otherwise tries once to replace it by one that lasts `lifetime`. */
module Runway {

  datatype Plan = Plan(period: real, before: real, lifetime: real)

  /** The threshold covers at least one period, and new certificates outlast the threshold. */
  predicate Sensible(p: Plan) { 0.0 < p.period <= p.before < p.lifetime }

  /** `certRemaining` at a tick; `fails` is the number of attempts that have failed since the last success
      or skip. */
  datatype State = State(remaining: real, fails: nat)

  predicate Skips(p: Plan, s: State) { s.remaining > p.before }

  /** The validity right after the run at a tick. */
  function AfterRun(p: Plan, s: State, brainUp: bool): real {
    if Skips(p, s) || !brainUp then s.remaining else p.lifetime
  }

  /** The next tick. */
  function Next(p: Plan, s: State, brainUp: bool): State {
    State(AfterRun(p, s, brainUp) - p.period, if Skips(p, s) || brainUp then 0 else s.fails + 1)
  }

  /** The state at tick `n`, when `up` says at which ticks the brain answers. */
  function At(p: Plan, first: real, up: nat -> bool, n: nat): State {
    if n == 0 then State(first, 0) else Next(p, At(p, first, up, n - 1), up(n - 1))
  }

  /** At no tick have more than `budget` attempts in a row failed. */
  ghost predicate Outages(p: Plan, first: real, up: nat -> bool, budget: int) {
    forall n: nat :: At(p, first, up, n).fails <= budget
  }

  /** What is left `dt` after the run at tick `n`. */
  function LeftAt(p: Plan, first: real, up: nat -> bool, n: nat, dt: real): real {
    AfterRun(p, At(p, first, up, n), up(n)) - dt
  }

  /** The certificate is valid at tick `n` and all the way to the next one. */
  ghost predicate ValidFrom(p: Plan, first: real, up: nat -> bool, n: nat) {
    && At(p, first, up, n).remaining > 0.0
    && forall dt: real :: 0.0 <= dt <= p.period ==> LeftAt(p, first, up, n, dt) > 0.0
  }

  ghost predicate NeverExpires(p: Plan, first: real, up: nat -> bool) {
    forall n: nat :: ValidFrom(p, first, up, n)
  }

  /** How many attempts in a row may fail. */
  function Budget(p: Plan): int
    requires p.period > 0.0
  {
    (p.before / p.period).Floor - 1
  }

  lemma {:induction false} Runway(p: Plan, first: real, up: nat -> bool, n: nat)
    requires Sensible(p) && first > p.before - p.period
    ensures At(p, first, up, n).remaining > p.before - p.period - At(p, first, up, n).fails as real * p.period
  {
    if n > 0 {
      Runway(p, first, up, n - 1);
      var s := At(p, first, up, n - 1);
      assert (s.fails + 1) as real * p.period == s.fails as real * p.period + p.period;
    }
  }

  lemma Scale(x: real, y: real, z: real)
    requires z > 0.0
    ensures x <= y ==> x * z <= y * z
    ensures x < y ==> x * z < y * z
  {
  }

  /** `before` in periods, and its whole part. */
  lemma WholePeriods(p: Plan, f: int)
    requires p.period > 0.0
    ensures f <= Budget(p) ==> f as real * p.period + p.period <= p.before
    ensures f > Budget(p) ==> f as real * p.period + p.period > p.before
  {
    var q := p.before / p.period;
    assert q * p.period == p.before;
    assert (f + 1) as real * p.period == f as real * p.period + p.period;
    Scale((f + 1) as real, q, p.period);
    Scale(q, (f + 1) as real, p.period);
  }

  /** With at most `Budget` failures in a row and enough validity at the first tick, the certificate
      never expires, at a tick or between two. */
  lemma OutageSurvived(p: Plan, first: real, up: nat -> bool)
    requires Sensible(p) && first > p.before - p.period && Outages(p, first, up, Budget(p))
    ensures NeverExpires(p, first, up)
  {
    forall n: nat ensures At(p, first, up, n).remaining > 0.0 {
      Runway(p, first, up, n);
      WholePeriods(p, At(p, first, up, n).fails);
    }
    forall n: nat ensures ValidFrom(p, first, up, n) {
      assert At(p, first, up, n + 1).remaining > 0.0;
    }
  }

  // ---------------------------------------------------------------------
  // One more failure does not

  lemma {:induction false} DownHill(p: Plan, first: real, up: nat -> bool, n: nat)
    requires Sensible(p) && first <= p.before && forall k: nat :: k < n ==> !up(k)
    ensures At(p, first, up, n) == State(first - n as real * p.period, n)
  {
    if n > 0 {
      DownHill(p, first, up, n - 1);
      assert (n - 1) as real * p.period >= 0.0;
      assert n as real * p.period == (n - 1) as real * p.period + p.period;
    }
  }

  lemma {:induction false} UpFrom(p: Plan, first: real, up: nat -> bool, m: nat, n: nat)
    requires m < n && forall k: nat :: m <= k ==> up(k)
    ensures At(p, first, up, n).fails == 0
    decreases n
  {
  }

  /** A start with enough validity and an outage of `Budget + 1` attempts that ends in an expired certificate. */
  lemma OutageTooLong(p: Plan) returns (first: real, up: nat -> bool)
    requires Sensible(p)
    ensures first > p.before - p.period && Outages(p, first, up, Budget(p) + 1) && !NeverExpires(p, first, up)
  {
    var q := Budget(p) + 1;
    WholePeriods(p, 0);
    WholePeriods(p, q - 1);
    WholePeriods(p, q);
    assert q as real * p.period == (q - 1) as real * p.period + p.period;
    first := q as real * p.period;
    up := (n: nat) => n >= q;
    forall n: nat ensures At(p, first, up, n).fails <= q {
      if n <= q { DownHill(p, first, up, n); } else { UpFrom(p, first, up, q, n); }
    }
    DownHill(p, first, up, q);
    assert At(p, first, up, q).remaining == 0.0;
    assert !ValidFrom(p, first, up, q);
  }

  /** The renewal runway is exactly that many attempts: a bound on consecutive failures guarantees a
      certificate that never expires, for every start with more than `before - period` left and every
      outage pattern within the bound, if and only if it is at most `Budget`. */
  lemma RunwayIsExact(p: Plan, bound: int)
    requires Sensible(p)
    ensures (forall first: real, up: nat -> bool :: first > p.before - p.period && Outages(p, first, up, bound) ==> NeverExpires(p, first, up))
       <==> bound <= (p.before / p.period).Floor - 1
  {
    if bound <= Budget(p) {
      forall first: real, up: nat -> bool | first > p.before - p.period && Outages(p, first, up, bound)
        ensures NeverExpires(p, first, up)
      {
        assert Outages(p, first, up, Budget(p));
        OutageSurvived(p, first, up);
      }
    } else {
      var first, up := OutageTooLong(p);
      assert Outages(p, first, up, bound);
    }
  }

  /** A run that reaches the brain inside the threshold leaves a whole lifetime; any other run leaves what there
      was; and a period goes by until the next. */
  lemma TickMeaning(p: Plan, first: real, up: nat -> bool, n: nat)
    ensures At(p, first, up, 0).remaining == first
    ensures var r := At(p, first, up, n).remaining;
            && (r <= p.before && up(n) ==> At(p, first, up, n + 1) == State(p.lifetime - p.period, 0))
            && (r > p.before ==> At(p, first, up, n + 1) == State(r - p.period, 0))
            && (r <= p.before && !up(n) ==> At(p, first, up, n + 1) == State(r - p.period, At(p, first, up, n).fails + 1))
  {
  }

  /** The chart's defaults, in hours: daily runs and a threshold of 48 with certificates of 168 survive
      one failed attempt, not two. */
  lemma ChartDefaults()
    ensures Sensible(Plan(24.0, 48.0, 168.0)) && Budget(Plan(24.0, 48.0, 168.0)) == 1
  {
  }
}
