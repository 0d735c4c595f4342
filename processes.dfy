/** The processes of processes.py as objects whose state vector changes in
    place. The standard-normal draws that the source takes from its seeded
    generator are an argument of `Sample`; ghost history records the draws and
    fed states since the last reset, and `Valid()` ties the current state to the
    recurrences of ProcessesSpec. */
module Processes {
  import opened Wrappers
  import opened AveragesSpec
  import opened ProcessesSpec
  import opened Averages

  /** A mean-reverting process: each sample decays the state by `1 - theta`
      and adds Gaussian noise of scale `sigma`. */
  class OUProcess {
    const theta: real
    const sigma: real
    /** The private copy of the initial state; nothing ever changes it. */
    const initial: seq<real>
    var state: seq<real>
    /** The standard-normal vectors drawn since the last reset. */
    ghost var draws: seq<seq<real>>

    ghost predicate Valid()
      reads this
    {
      Conforms(draws, |initial|) && state == OURun(theta, sigma, initial, draws)
    }

    constructor (theta: real, sigma: real, initialValue: seq<real>)
      ensures Valid()
      ensures this.theta == theta && this.sigma == sigma && initial == initialValue
      ensures state == initialValue && draws == []
    {
      this.theta := theta;
      this.sigma := sigma;
      initial := initialValue;
      state := initialValue;
      draws := [];
      new;
      Reset();
    }

    /** Restores the initial state. */
    method Reset()
      modifies this
      ensures Valid()
      ensures state == initial && draws == []
    {
      state := initial;
      draws := [];
    }

    /** Advances the process with the standard-normal draws `z`, one per element,
        and returns a copy of the new state. */
    method Sample(z: seq<real>) returns (r: seq<real>)
      requires Valid()
      requires |z| == |initial|
      modifies this
      ensures Valid()
      ensures state == OUStep(theta, sigma, old(state), z) && draws == old(draws) + [z]
      ensures |state| == |initial| && r == state
    {
      state := OUStep(theta, sigma, state, z);
      draws := draws + [z];
      assert draws[..|draws| - 1] == old(draws);
      r := state;
    }
  }

  /** `n` fresh memories, each a delay of `delay` over its own estimator seeded
      with 0; no two share an object. */
  method NewMemories(n: nat, gamma: real, delay: nat) returns (ms: seq<DelayedStat>, ghost footprint: set<object>)
    ensures |ms| == n && fresh(footprint)
    ensures forall m :: m in ms ==> m.Repr() <= footprint
    ensures Separate(ms)
    ensures forall i :: 0 <= i < n ==>
      && ms[i].Valid() && ms[i].delay == delay && ms[i].inputs == [] && ms[i].prior == []
      && ms[i].underlying.gamma == gamma && ms[i].underlying.init == Some(0.0)
  {
    ms := [];
    footprint := {};
    while |ms| < n
      invariant |ms| <= n && fresh(footprint)
      invariant forall m :: m in ms ==> m.Repr() <= footprint
      invariant Separate(ms)
      invariant forall i :: 0 <= i < |ms| ==>
        && ms[i].Valid() && ms[i].delay == delay && ms[i].inputs == [] && ms[i].prior == []
        && ms[i].underlying.gamma == gamma && ms[i].underlying.init == Some(0.0)
    {
      var ewma := new EWMA(gamma, Some(0.0));
      var m := new DelayedStat(ewma, delay);
      ms := ms + [m];
      footprint := footprint + {m, ewma};
    }
  }

  /** No two memories share an object. */
  ghost predicate Separate(ms: seq<DelayedStat>)
  {
    forall i, j :: 0 <= i < |ms| && 0 <= j < |ms| && i != j ==>
      ms[i] != ms[j] && ms[i].underlying != ms[j].underlying
  }

  /** An Ornstein-Uhlenbeck process whose drift is pulled towards `avSign`
      times a delayed moving average of its own past states, one memory per
      element of the state. */
  class OUProcessWithMemory {
    const theta: real
    const sigma: real
    /** The decay factor of the memories (`2^(-1/av_halflife)`). */
    const avGamma: real
    const avDelay: nat
    const avSign: real
    /** The private copy of the initial state; nothing ever changes it. */
    const initial: seq<real>
    var state: seq<real>
    /** One delayed moving average per element of the state. */
    var ewmas: seq<DelayedStat>
    /** The states fed to the memories since the last reset, oldest first. */
    ghost var fed: seq<seq<real>>
    /** The standard-normal vectors drawn since the last reset. */
    ghost var draws: seq<seq<real>>
    ghost var Repr: set<object>

    function Params(): MemoryParams
    {
      MemoryParams(theta, sigma, avGamma, avDelay, avSign)
    }

    /** `m` is one of this process's memories, in a valid state. */
    ghost predicate IsMemory(m: DelayedStat)
      reads m, m.underlying
    {
      && m.Valid() && m.delay == avDelay && m.prior == []
      && m.underlying.gamma == avGamma && m.underlying.init == Some(0.0)
    }

    /** `m` is one of this process's memories and has been fed `col`. */
    ghost predicate HasBeenFed(m: DelayedStat, col: seq<real>)
      reads m, m.underlying
    {
      IsMemory(m) && m.inputs == col
    }

    /** Memory `i` of `ms` has been fed element `i` of every state in `h`. */
    ghost predicate MemoriesFed(ms: seq<DelayedStat>, h: seq<seq<real>>)
      reads set m | m in ms, set m | m in ms :: m.underlying
    {
      && Conforms(h, |ms|)
      && forall i :: 0 <= i < |ms| ==> HasBeenFed(ms[i], Column(h, i))
    }

    /** The shape of the process and the objects it owns. */
    ghost predicate Frame()
      reads this
    {
      && this in Repr
      && |ewmas| == |initial| && |state| == |initial|
      && Conforms(fed, |initial|)
      && (forall m :: m in ewmas ==> m.Repr() <= Repr)
      && Separate(ewmas)
    }

    /** The objects of the process and the state of its memories. */
    ghost predicate Owned()
      reads this, Repr
    {
      Frame() && MemoriesFed(ewmas, fed)
    }

    /** The state is the one reached from the initial state by the draws since
        the last reset, and the memories were fed every earlier state. */
    ghost predicate Tracks()
      reads this
    {
      && Conforms(draws, |initial|)
      && fed + [state] == MemoryStates(Params(), initial, draws)
    }

    ghost predicate Valid()
      reads this, Repr
    {
      Owned() && Tracks()
    }

    constructor (theta: real, sigma: real, initialValue: seq<real>, avGamma: real, avDelay: nat, avSign: real)
      ensures Valid() && fresh(Repr)
      ensures this.theta == theta && this.sigma == sigma && initial == initialValue
      ensures this.avGamma == avGamma && this.avDelay == avDelay && this.avSign == avSign
      ensures state == initialValue && fed == [] && draws == []
    {
      this.theta := theta;
      this.sigma := sigma;
      this.avGamma := avGamma;
      this.avDelay := avDelay;
      this.avSign := avSign;
      initial := initialValue;
      state := initialValue;
      new;
      Reset();
    }

    /** Restores the initial state and replaces every memory by a fresh one. */
    method Reset()
      modifies this
      ensures Valid() && fresh(Repr - {this})
      ensures state == initial && fed == [] && draws == []
      ensures forall i :: 0 <= i < |ewmas| ==>
        ewmas[i].buffer == [] && ewmas[i].underlying.x == Some(0.0)
    {
      state := initial;
      var ms;
      ghost var footprint;
      ms, footprint := NewMemories(|initial|, avGamma, avDelay);
      ewmas := ms;
      Repr := {this} + footprint;
      fed := [];
      draws := [];
    }

    /** The reading of every memory, taken before any of them is fed. */
    method ReadAverages() returns (av: seq<real>)
      requires Owned()
      ensures |av| == |state| == |initial|
      ensures av == AvState(Params(), fed, |initial|)
    {
      ghost var expected := AvState(Params(), fed, |initial|);
      av := [];
      var i := 0;
      while i < |ewmas|
        invariant 0 <= i <= |ewmas|
        invariant av == expected[..i]
      {
        var r := ewmas[i].Get();
        MemoryReading(avGamma, avDelay, Column(fed, i));
        assert r.Ok? && r.value == expected[i];
        av := av + [r.value];
        i := i + 1;
      }
    }

    /** Feeds one memory the value `v`. */
    method FeedOne(m: DelayedStat, v: real, ghost col: seq<real>) returns (outcome: Outcome)
      requires HasBeenFed(m, col)
      modifies m, m.underlying
      ensures outcome == if avDelay == 0 then Fail(PopFromEmptyDeque) else Pass
      ensures outcome.Fail? ==> unchanged(m, m.underlying)
      ensures outcome.Pass? ==> HasBeenFed(m, col + [v])
    {
      outcome := m.Update(v);
    }

    /** Feeds every memory the current element of the state, in order; with a
        zero delay the first memory raises and nothing changes. */
    method FeedMemories() returns (outcome: Outcome)
      requires Owned()
      modifies Repr - {this}
      ensures unchanged(this)
      ensures outcome == if avDelay == 0 && |ewmas| > 0 then Fail(PopFromEmptyDeque) else Pass
      ensures outcome.Fail? ==> unchanged(Repr)
      ensures outcome.Pass? ==> MemoriesFed(ewmas, fed + [state])
    {
      var ms, s := ewmas, state;
      ghost var h := fed;
      var i := 0;
      while i < |ms|
        invariant 0 <= i <= |ms|
        invariant avDelay > 0 || i == 0
        invariant i == 0 ==> unchanged(Repr)
        invariant forall j :: 0 <= j < i ==> HasBeenFed(ms[j], Column(h + [s], j))
        invariant forall j :: i <= j < |ms| ==> HasBeenFed(ms[j], Column(h, j))
      {
        assert ms[i] in ewmas;
        ColumnSnoc(h, s, i);
        outcome := FeedOne(ms[i], s[i], Column(h, i));
        if outcome.Fail? {
          return;
        }
        i := i + 1;
      }
      outcome := Pass;
    }

    /** Reads every memory, feeds each the current element of the state, then
        advances the state with the memory term and the draws `z`, and returns a
        copy of the new state. With a zero delay the first memory's buffer pops
        an empty deque, which raises before anything changes. */
    method Sample(z: seq<real>) returns (r: Result<seq<real>>)
      requires Valid()
      requires |z| == |initial|
      modifies Repr
      ensures Valid() && Repr == old(Repr) && ewmas == old(ewmas)
      ensures avDelay == 0 && |initial| > 0 ==>
        && r == Err(PopFromEmptyDeque)
        && state == old(state) && fed == old(fed) && draws == old(draws)
      ensures avDelay > 0 || |initial| == 0 ==>
        && state == MemoryStep(Params(), old(state), AvState(Params(), old(fed), |initial|), z)
        && fed == old(fed) + [old(state)] && draws == old(draws) + [z]
        && r == Ok(state)
    {
      var av := ReadAverages();
      var outcome := FeedMemories();
      if outcome.Fail? {
        return Err(outcome.error);
      }
      Advance(av, z);
      r := Ok(state);
    }

    /** The state update of `Sample` once the memories are read and fed: the
        memory term `av` and the draws `z` move the state one step. */
    method Advance(av: seq<real>, z: seq<real>)
      requires Frame() && Tracks()
      requires |z| == |initial| && av == AvState(Params(), fed, |initial|)
      modifies this
      ensures Frame() && Tracks() && Repr == old(Repr) && ewmas == old(ewmas)
      ensures state == MemoryStep(Params(), old(state), av, z)
      ensures fed == old(fed) + [old(state)] && draws == old(draws) + [z]
    {
      MemoryStatesSnoc(Params(), initial, draws, fed, state, z);
      fed := fed + [state];
      state := MemoryStep(Params(), state, av, z);
      draws := draws + [z];
    }
  }

  /** Resetting a process and sampling it behaves as sampling a freshly built
      process with the same constants and the same draws. */
  method ResetMatchesFreshProcess(p: OUProcessWithMemory, z: seq<real>) returns (a: Result<seq<real>>, b: Result<seq<real>>)
    requires p.Valid()
    requires |z| == |p.initial|
    modifies p.Repr
    ensures a == b
  {
    var q := new OUProcessWithMemory(p.theta, p.sigma, p.initial, p.avGamma, p.avDelay, p.avSign);
    p.Reset();
    a := p.Sample(z);
    b := q.Sample(z);
  }
}
