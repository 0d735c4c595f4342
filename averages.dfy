/** The estimators of averages.py as objects whose fields change in place: the
    exponentially weighted moving average `EWMA` and the delay decorator
    `DelayedStat`. Each carries ghost history (what it has been fed) and a
    `Valid()` invariant tying its real fields to the functions of AveragesSpec. */
module Averages {
  import opened Wrappers
  import opened AveragesSpec

  /** An exponentially weighted moving average with decay factor `gamma`
      (`2^(-1/halflife)` for the half-life the caller has in mind). */
  class EWMA {
    const gamma: real
    var x: Option<real>
    /** The value the estimator was built with. */
    ghost const init: Option<real>
    /** Every value passed to `Update`, oldest first. */
    ghost var fed: seq<real>

    ghost predicate Valid()
      reads this
    {
      x == ObserveAll(gamma, init, fed)
    }

    constructor (gamma: real, initialValue: Option<real>)
      ensures Valid()
      ensures this.gamma == gamma && x == initialValue && init == initialValue && fed == []
    {
      this.gamma := gamma;
      x := initialValue;
      init := initialValue;
      fed := [];
    }

    /** Stores `v` exactly when nothing is held, otherwise smooths it in. */
    method Update(v: real)
      requires Valid()
      modifies this
      ensures Valid()
      ensures fed == old(fed) + [v]
      ensures old(x).None? ==> x == Some(v)
      ensures old(x).Some? ==> x.Some? && x.value == gamma * old(x).value + (1.0 - gamma) * v
    {
      ghost var next := Observe(gamma, x, v);
      if x.None? {
        x := Some(v);
      } else {
        var y := x.value * gamma;
        y := y + (1.0 - gamma) * v;
        assert next.Some? && next.value == y;
        x := Some(y);
      }
      assert x == next;
      fed := fed + [v];
      assert fed[..|fed| - 1] == old(fed);
      assert ObserveAll(gamma, init, fed) == next;
    }

    /** The held value, or the error raised when nothing is held: the latter
        happens exactly when no initial value was given and nothing was fed. */
    method Get() returns (r: Result<real>)
      requires Valid()
      ensures r == Read(ObserveAll(gamma, init, fed))
      ensures r.Err? <==> init.None? && fed == []
      ensures r.Err? ==> r.error == Uninitialized
    {
      AbsentOnlyWhenNeverSet(gamma, init, fed);
      match x
      case Some(a) =>
        r := Ok(a);
      case None =>
        r := Err(Uninitialized);
    }
  }

  /** Delays the input stream of an underlying estimator by `delay` updates:
      inputs wait in a FIFO buffer of capacity `delay`, and the oldest is
      forwarded once the buffer is full. */
  class DelayedStat {
    const underlying: EWMA
    const delay: nat
    /** The deque of pending inputs, oldest first. */
    var buffer: seq<real>
    /** Every value passed to `Update` that it accepted, oldest first. */
    ghost var inputs: seq<real>
    /** What the underlying estimator had been fed before it was wrapped. */
    ghost const prior: seq<real>

    /** The objects a `DelayedStat` owns. */
    ghost function Repr(): set<object>
    {
      {this, underlying}
    }

    ghost predicate Valid()
      reads this, underlying
    {
      && underlying.Valid()
      && buffer == Pending(inputs, delay)
      && underlying.fed == prior + Forwarded(inputs, delay)
    }

    constructor (underlying: EWMA, delay: nat)
      requires underlying.Valid()
      ensures Valid()
      ensures this.underlying == underlying && this.delay == delay
      ensures buffer == [] && inputs == [] && prior == underlying.fed
    {
      this.underlying := underlying;
      this.delay := delay;
      buffer := [];
      inputs := [];
      prior := underlying.fed;
      new;
      assert Forwarded([], delay) == [];
    }

    /** Forwards the oldest pending input when `delay` inputs are pending, then
        appends `v`. With `delay == 0` the empty deque is popped, which raises
        before anything changes. */
    method Update(v: real) returns (r: Outcome)
      requires Valid()
      modifies this, underlying
      ensures Valid()
      ensures r == if delay == 0 then Fail(PopFromEmptyDeque) else Pass
      ensures r.Fail? ==> unchanged(this, underlying)
      ensures r.Pass? ==> inputs == old(inputs) + [v]
      ensures r.Pass? && |old(buffer)| < delay ==>
        && buffer == old(buffer) + [v]
        && underlying.fed == old(underlying.fed) && underlying.x == old(underlying.x)
      ensures r.Pass? && |old(buffer)| == delay ==>
        && buffer == old(buffer)[1..] + [v]
        && underlying.fed == old(underlying.fed) + [old(buffer)[0]]
    {
      if |buffer| == delay {
        if buffer == [] {
          return Fail(PopFromEmptyDeque);
        }
        var oldest := buffer[0];
        buffer := buffer[1..];
        underlying.Update(oldest);
      }
      buffer := buffer + [v];
      ForwardedThenPending(inputs, delay);
      ForwardOldestPending(inputs, delay, v);
      inputs := inputs + [v];
      r := Pass;
    }

    /** Exactly the underlying estimator's reading, which reflects only the
        first `max(0, n - delay)` of the `n` inputs. */
    method Get() returns (r: Result<real>)
      requires Valid()
      ensures r == Read(ObserveAll(underlying.gamma, underlying.init, prior + Forwarded(inputs, delay)))
      ensures r == Read(underlying.x)
    {
      r := underlying.Get();
    }
  }

  /** The delayed-estimator check with an initial value: a delay of two over an
      estimator seeded with 0 and `gamma == 1/2`, fed 1, 2, 10, 10, reads
      0, 0, 0, 1/2 and 1/2 + (2 - 1/2)/2. */
  method DelayedEwmaWithInitialValue() returns (readings: seq<Result<real>>)
    ensures readings == [Ok(0.0), Ok(0.0), Ok(0.0), Ok(0.5), Ok(0.5 + (2.0 - 0.5) / 2.0)]
  {
    DelayedReadings();
    var ewma := new EWMA(0.5, Some(0.0));
    var delayed := new DelayedStat(ewma, 2);
    var r0 := delayed.Get();
    var ok := delayed.Update(1.0);
    var r1 := delayed.Get();
    ok := delayed.Update(2.0);
    var r2 := delayed.Get();
    ok := delayed.Update(10.0);
    var r3 := delayed.Get();
    ok := delayed.Update(10.0);
    var r4 := delayed.Get();
    readings := [r0, r1, r2, r3, r4];
  }

  /** The delayed-estimator check without an initial value: a delay of two over
      an unseeded estimator with `gamma == 1/2`, fed 1, 2, 2, 2: the first two
      readings raise, then it reads 1 and (1 + 2)/2. */
  method DelayedEwmaWithoutInitialValue() returns (readings: seq<Result<real>>)
    ensures readings == [Err(Uninitialized), Err(Uninitialized), Ok(1.0), Ok((1.0 + 2.0) / 2.0)]
  {
    DelayedReadings();
    var ewma := new EWMA(0.5, None);
    var delayed := new DelayedStat(ewma, 2);
    var ok := delayed.Update(1.0);
    var r0 := delayed.Get();
    ok := delayed.Update(2.0);
    var r1 := delayed.Get();
    ok := delayed.Update(2.0);
    var r2 := delayed.Get();
    ok := delayed.Update(2.0);
    var r3 := delayed.Get();
    readings := [r0, r1, r2, r3];
  }

  /** An estimator built with an initial value reads it back; one built without,
      and never updated, raises. */
  method InitialValueReadings() returns (seeded: Result<real>, unseeded: Result<real>)
    ensures seeded == Ok(5.0) && unseeded == Err(Uninitialized)
  {
    var a := new EWMA(0.5, Some(5.0));
    seeded := a.Get();
    var b := new EWMA(0.5, None);
    unseeded := b.Get();
  }
}
