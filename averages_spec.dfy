/** The mathematics of the estimators in averages.py: the exponentially weighted
    moving average as a fold over the inputs it has observed, and the split of a
    delayed input stream into what has been forwarded and what is still pending. */
module AveragesSpec {
  import opened Wrappers

  /** The value held after one `EWMA.update(v)`: the first observation is stored
      exactly, every later one is smoothed in with weight `1 - gamma`. */
  function Observe(gamma: real, held: Option<real>, v: real): (r: Option<real>)
  {
    match held
    case None => Some(v)
    case Some(a) => Some(a * gamma + (1.0 - gamma) * v)
  }

  /** The value held after observing `vs` in order, starting from `held`. */
  function ObserveAll(gamma: real, held: Option<real>, vs: seq<real>): (r: Option<real>)
    decreases |vs|
  {
    if vs == [] then held
    else Observe(gamma, ObserveAll(gamma, held, vs[..|vs| - 1]), vs[|vs| - 1])
  }

  /** What `EWMA.get` returns, or raises, for a held value. */
  function Read(held: Option<real>): (r: Result<real>)
  {
    match held
    case None => Err(Uninitialized)
    case Some(a) => Ok(a)
  }

  function Pow(b: real, n: nat): (r: real)
  {
    if n == 0 then 1.0 else b * Pow(b, n - 1)
  }

  /** `n` copies of `b`. */
  function Repeat(b: real, n: nat): (r: seq<real>)
    ensures |r| == n && forall i :: 0 <= i < n ==> r[i] == b
  {
    seq(n, _ => b)
  }

  function Min(a: nat, b: nat): nat
  {
    if a <= b then a else b
  }

  /** How many of `n` inputs a delay of `delay` has forwarded: `max(0, n - delay)`. */
  function ForwardedCount(n: nat, delay: nat): (k: nat)
    ensures k <= n
    ensures n <= delay ==> k == 0
    ensures n >= delay ==> k == n - delay
  {
    if n > delay then n - delay else 0
  }

  /** The inputs a delay buffer has passed on to its underlying estimator. */
  function Forwarded(inputs: seq<real>, delay: nat): (f: seq<real>)
  {
    inputs[..ForwardedCount(|inputs|, delay)]
  }

  /** The inputs still waiting in a delay buffer. */
  function Pending(inputs: seq<real>, delay: nat): (w: seq<real>)
  {
    inputs[ForwardedCount(|inputs|, delay)..]
  }

  /** The value seen through a delay of `delay` over an estimator that started
      from `held`, after the caller has supplied `inputs`. */
  function DelayedView(gamma: real, held: Option<real>, delay: nat, inputs: seq<real>): (r: Option<real>)
  {
    ObserveAll(gamma, held, Forwarded(inputs, delay))
  }

  // ---------------------------------------------------------------------------
  // The estimator

  /** The held value is absent only if nothing was ever observed and no initial
      value was given; once present it stays present. */
  lemma AbsentOnlyWhenNeverSet(gamma: real, held: Option<real>, vs: seq<real>)
    ensures ObserveAll(gamma, held, vs).None? <==> held.None? && vs == []
    ensures held.Some? ==> ObserveAll(gamma, held, vs).Some?
  {
  }

  /** Observing `a` and then `b` is observing `a + b`. */
  lemma {:induction false} ObserveAllAppend(gamma: real, held: Option<real>, a: seq<real>, b: seq<real>)
    ensures ObserveAll(gamma, held, a + b) == ObserveAll(gamma, ObserveAll(gamma, held, a), b)
    decreases |b|
  {
    if b == [] {
      assert a + b == a;
    } else {
      var b' := b[..|b| - 1];
      assert (a + b)[..|a + b| - 1] == a + b';
      ObserveAllAppend(gamma, held, a, b');
    }
  }

  /** A fresh estimator stores its first observation exactly, with no smoothing. */
  lemma {:induction false} FirstObservationStored(gamma: real, a: real, vs: seq<real>)
    ensures ObserveAll(gamma, None, [a] + vs) == ObserveAll(gamma, Some(a), vs)
  {
    ObserveAllAppend(gamma, None, [a], vs);
    assert ObserveAll(gamma, None, [a]) == Observe(gamma, ObserveAll(gamma, None, []), a);
  }

  lemma {:induction false} PowAdd(b: real, m: nat, n: nat)
    ensures Pow(b, m + n) == Pow(b, m) * Pow(b, n)
    decreases m
  {
    if m > 0 {
      PowAdd(b, m - 1, n);
    }
  }

  /** The value of an estimator that holds `a` after observing `vs`: once a
      value is held it is never lost, so the fold is over plain reals. */
  function Smoothed(gamma: real, a: real, vs: seq<real>): (r: real)
    decreases |vs|
  {
    if vs == [] then a
    else Smoothed(gamma, a, vs[..|vs| - 1]) * gamma + (1.0 - gamma) * vs[|vs| - 1]
  }

  /** A seeded estimator holds exactly `Smoothed`. */
  lemma {:induction false} SeededIsSmoothed(gamma: real, a: real, vs: seq<real>)
    ensures ObserveAll(gamma, Some(a), vs).Some?
    ensures ObserveAll(gamma, Some(a), vs).value == Smoothed(gamma, a, vs)
    decreases |vs|
  {
    if vs != [] {
      SeededIsSmoothed(gamma, a, vs[..|vs| - 1]);
    }
  }

  /** One smoothing step towards `b` from `b + d * p` leaves `b + d * (gamma * p)`. */
  lemma SmoothingStep(gamma: real, d: real, b: real, p: real)
    ensures (b + d * p) * gamma + (1.0 - gamma) * b == b + d * (gamma * p)
  {
    calc {
      (b + d * p) * gamma + (1.0 - gamma) * b;
      b * gamma + (d * p) * gamma + b - gamma * b;
      b + (d * p) * gamma;
      { assert (d * p) * gamma == d * (p * gamma) == d * (gamma * p); }
      b + d * (gamma * p);
    }
  }

  /** Holding `a`, `n` observations of the constant `b` give `b + (a - b) * gamma^n`. */
  lemma {:induction false} SmoothedConstant(gamma: real, a: real, b: real, n: nat)
    ensures Smoothed(gamma, a, Repeat(b, n)) == b + (a - b) * Pow(gamma, n)
  {
    if n > 0 {
      SmoothedConstant(gamma, a, b, n - 1);
      assert Repeat(b, n)[..n - 1] == Repeat(b, n - 1);
      SmoothingStep(gamma, a - b, b, Pow(gamma, n - 1));
    }
  }

  /** An estimator holding `a` and fed `n` copies of the constant `b` holds
      `b + (a - b) * gamma^n`: the distance to `b` decays geometrically. */
  lemma ConstantInputClosedForm(gamma: real, a: real, b: real, n: nat)
    ensures ObserveAll(gamma, Some(a), Repeat(b, n)).Some?
    ensures ObserveAll(gamma, Some(a), Repeat(b, n)).value == b + (a - b) * Pow(gamma, n)
  {
    SeededIsSmoothed(gamma, a, Repeat(b, n));
    SmoothedConstant(gamma, a, b, n);
  }

  /** A constant input equal to the held value is a fixed point. */
  lemma {:induction false} ConstantInputFixedPoint(gamma: real, c: real, n: nat)
    ensures ObserveAll(gamma, Some(c), Repeat(c, n)) == Some(c)
  {
    ConstantInputClosedForm(gamma, c, c, n);
  }

  /** The steady-input check: a fresh estimator fed the same value `c` one or
      more times holds exactly `c`. */
  lemma FreshConstantInput(gamma: real, c: real, n: nat)
    requires n >= 1
    ensures ObserveAll(gamma, None, Repeat(c, n)) == Some(c)
  {
    assert Repeat(c, n) == [c] + Repeat(c, n - 1);
    FirstObservationStored(gamma, c, Repeat(c, n - 1));
    ConstantInputFixedPoint(gamma, c, n - 1);
  }

  /** The decay checks of the estimator: with a half-life of ten steps
      (`gamma^10 == 1/2`), a fresh estimator fed 10 and then zeros reads 5 after
      ten zeros and 2.5 after twenty; fed 10 and then twenties it reads 15 and 17.5. */
  lemma HalfLifeDecay(gamma: real)
    requires Pow(gamma, 10) == 0.5
    ensures ObserveAll(gamma, None, [10.0] + Repeat(0.0, 10)) == Some(5.0)
    ensures ObserveAll(gamma, None, [10.0] + Repeat(0.0, 20)) == Some(2.5)
    ensures ObserveAll(gamma, None, [10.0] + Repeat(20.0, 10)) == Some(15.0)
    ensures ObserveAll(gamma, None, [10.0] + Repeat(20.0, 20)) == Some(17.5)
  {
    PowAdd(gamma, 10, 10);
    assert Pow(gamma, 20) == 0.25;
    FirstObservationStored(gamma, 10.0, Repeat(0.0, 10));
    FirstObservationStored(gamma, 10.0, Repeat(0.0, 20));
    FirstObservationStored(gamma, 10.0, Repeat(20.0, 10));
    FirstObservationStored(gamma, 10.0, Repeat(20.0, 20));
    ConstantInputClosedForm(gamma, 10.0, 0.0, 10);
    ConstantInputClosedForm(gamma, 10.0, 0.0, 20);
    ConstantInputClosedForm(gamma, 10.0, 20.0, 10);
    ConstantInputClosedForm(gamma, 10.0, 20.0, 20);
  }

  // ---------------------------------------------------------------------------
  // The delay buffer

  /** The forwarded inputs followed by the pending ones are all the inputs; at
      most `delay` are pending, and they are the most recent ones. */
  lemma ForwardedThenPending(inputs: seq<real>, delay: nat)
    ensures Forwarded(inputs, delay) + Pending(inputs, delay) == inputs
    ensures |Pending(inputs, delay)| == Min(|inputs|, delay) <= delay
    ensures |Forwarded(inputs, delay)| == ForwardedCount(|inputs|, delay)
  {
  }

  /** One more input forwards at most one value: the oldest pending one, and only
      when the buffer already held `delay` values. */
  lemma {:induction false} ForwardOldestPending(inputs: seq<real>, delay: nat, v: real)
    requires delay > 0
    ensures |inputs| < delay ==> Forwarded(inputs + [v], delay) == Forwarded(inputs, delay) == []
    ensures |inputs| >= delay ==>
      Forwarded(inputs + [v], delay) == Forwarded(inputs, delay) + [Pending(inputs, delay)[0]]
    ensures Pending(inputs + [v], delay) ==
      (if |inputs| < delay then Pending(inputs, delay) else Pending(inputs, delay)[1..]) + [v]
  {
    var k := ForwardedCount(|inputs|, delay);
    if |inputs| >= delay {
      assert (inputs + [v])[..k + 1] == inputs[..k] + [inputs[k]];
      assert (inputs + [v])[k + 1..] == inputs[k + 1..] + [v];
    } else {
      assert (inputs + [v])[k..] == inputs[k..] + [v];
    }
  }

  /** The delayed reading checks, with `gamma == 1/2` (a half-life of one step)
      and a delay of two: over an estimator seeded with 0 the readings after the
      inputs 1, 2, 10, 10 are 0, 0, 1/2 and 1/2 + (2 - 1/2)/2; over an unseeded
      one after 1, 2, 2, 2 nothing is held twice, then 1 and (1 + 2)/2. */
  lemma DelayedReadings()
    ensures DelayedView(0.5, Some(0.0), 2, []) == Some(0.0)
    ensures DelayedView(0.5, Some(0.0), 2, [1.0]) == Some(0.0)
    ensures DelayedView(0.5, Some(0.0), 2, [1.0, 2.0]) == Some(0.0)
    ensures DelayedView(0.5, Some(0.0), 2, [1.0, 2.0, 10.0]) == Some(0.5)
    ensures DelayedView(0.5, Some(0.0), 2, [1.0, 2.0, 10.0, 10.0]) == Some(0.5 + (2.0 - 0.5) / 2.0)
    ensures DelayedView(0.5, None, 2, [1.0]) == None
    ensures DelayedView(0.5, None, 2, [1.0, 2.0]) == None
    ensures DelayedView(0.5, None, 2, [1.0, 2.0, 2.0]) == Some(1.0)
    ensures DelayedView(0.5, None, 2, [1.0, 2.0, 2.0, 2.0]) == Some((1.0 + 2.0) / 2.0)
  {
    assert [1.0, 2.0, 10.0][..1] == [1.0];
    assert [1.0, 2.0, 10.0, 10.0][..2] == [1.0, 2.0];
    assert [1.0, 2.0][..1] == [1.0];
    assert [1.0, 2.0, 2.0][..1] == [1.0];
    assert [1.0, 2.0, 2.0, 2.0][..2] == [1.0, 2.0];
  }
}
