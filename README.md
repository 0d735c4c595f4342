# Delayed moving averages and Ornstein-Uhlenbeck processes with memory

This project models the core of `ou_exploration`: the exponentially weighted
moving average `EWMA` and the delay decorator `DelayedStat` (averages.py), and
the two noise generators `OUProcess` and `OUProcessWithMemory` (processes.py).
The model is written in Dafny and its properties are proved.

The model mirrors the code's form.
- Every source class is a Dafny class whose fields change in place.
- Each method's contract ties the new state to a pure function of the inputs
  seen so far. Ghost fields hold that history: `fed`, `inputs` and `draws`.
- AveragesSpec describes the estimators:
  - `Observe` and `ObserveAll` fold the inputs into the held value;
  - `Forwarded` and `Pending` split a delayed input stream.
- ProcessesSpec describes the processes:
  - `OUStep` and `OURun` for the plain process;
  - `MemoryStep`, `AvState` and `MemoryStates` for the process with memory.
- Lemmas over these functions state what the source and its checks promise.

Ownership is explicit. A process with memory owns its `DelayedStat` objects,
and each of those owns its `EWMA`. The footprint `Repr` and the predicate
`Separate` say that no two memories share an object. Feeding one memory
therefore leaves every other memory as it was.

In three places the model departs from the design or from the source:
- **Delay 0.** A delay of zero does not make `DelayedStat` a pass-through.
  `deque(maxlen=0)` is already "full", so the first `update` pops from an empty
  deque and raises (averages.py:30-34). The model follows the code:
  `DelayedStat.Update` returns `Fail(PopFromEmptyDeque)` and changes nothing.
  In the same way, `OUProcessWithMemory.Sample` with `av_delay == 0` raises
  before its state moves.
- **Missing-value checks.** Several bare `self.assertRaises(ValueError)`
  calls in the checks (averages.py:48, 94, 96, 99) check nothing. The model
  states the behaviour they were meant to check: a read raises exactly when
  nothing has been held (`Averages.EWMA.Get`, `Averages.InitialValueReadings`,
  `Averages.DelayedEwmaWithoutInitialValue`).
- **Number of memories.** The source builds one memory per axis of the
  state's shape, so for a vector state of length `n` other than 1 its first
  sample raises. The model builds one memory per element, which is what
  the readings' reshape evidently needs. See "## Findings".

## Model

| member | source | states |
|---|---|---|
| Averages.EWMA.constructor | averages.py:8-10 | A new estimator holds exactly the initial value, or nothing when none is given, and has been fed nothing. |
| Averages.EWMA.Update | averages.py:12-17 | The first value fed to an empty estimator is stored exactly. A held value `a` becomes `gamma*a + (1-gamma)*v`. The invariant holds: the held value is `ObserveAll` of the initial value and everything fed so far. |
| Averages.EWMA.Get | averages.py:19-23 | Returns the held value. It raises `Uninitialized` exactly when no initial value was given and nothing was fed. |
| Averages.DelayedStat.constructor | averages.py:27-30 | The buffer starts empty. The underlying estimator's history at wrap time is recorded as `prior`. |
| Averages.DelayedStat.Update | averages.py:32-35 | With delay 0 the empty deque is popped: it raises and nothing changes. Otherwise, a buffer with fewer than `delay` values gains `v` and the estimator is untouched. A full buffer forwards its oldest value to the estimator, then appends `v`. The invariant holds: the buffer is `Pending(inputs)`, and the estimator has been fed `prior + Forwarded(inputs)`. |
| Averages.DelayedStat.Get | averages.py:37-38 | Returns the underlying estimator's reading, which reflects only the first `max(0, n - delay)` of the `n` inputs. |
| Averages.InitialValueReadings | averages.py:42-48 | An estimator seeded with 5 reads 5. An unseeded, never-fed one raises. |
| Averages.DelayedEwmaWithoutInitialValue | averages.py:90-106 | Through a delay of 2 over an unseeded estimator with `gamma = 1/2`, fed 1, 2, 2, 2: the first two reads raise, then it reads 1 and 3/2. |
| Averages.DelayedEwmaWithInitialValue | averages.py:108-125 | Through a delay of 2 over an estimator seeded with 0 and fed 1, 2, 10, 10, the reads are 0, 0, 0, 1/2 and 1/2 + (2 - 1/2)/2. |
| AveragesSpec.AbsentOnlyWhenNeverSet | averages.py:12-23 | Nothing is held if and only if there was no initial value and nothing was fed. A held value is never lost. |
| AveragesSpec.ObserveAllAppend | averages.py:12-17 | Feeding `a` and then `b` leaves the same value as feeding `a + b`. |
| AveragesSpec.FirstObservationStored | averages.py:13-14 | An empty estimator fed `[a] + vs` ends exactly like one seeded with `a` and fed `vs`. |
| AveragesSpec.SeededIsSmoothed | averages.py:15-17 | A seeded estimator always holds a value, equal to the real-valued fold `Smoothed` of its inputs. |
| AveragesSpec.SmoothedConstant | averages.py:15-17 | Smoothing `n` copies of `b` into `a` gives `b + (a - b) * gamma^n`. |
| AveragesSpec.ConstantInputClosedForm | averages.py:15-17 | An estimator holding `a` and fed `b` `n` times holds `b + (a - b) * gamma^n`. The distance to the input decays geometrically. |
| AveragesSpec.ConstantInputFixedPoint | averages.py:50-59 | Feeding the held value again and again leaves it unchanged. |
| AveragesSpec.FreshConstantInput | averages.py:50-59 | An empty estimator fed the same value one or more times holds exactly that value. |
| AveragesSpec.HalfLifeDecay | averages.py:61-86 | With `gamma^10 = 1/2`, an estimator fed 10 and then zeros reads 5 after ten zeros and 2.5 after twenty. Fed 10 and then twenties, it reads 15 and 17.5. |
| AveragesSpec.ForwardedThenPending | averages.py:30-35 | The forwarded inputs followed by the pending ones are all the inputs. At most `delay` inputs are pending. |
| AveragesSpec.ForwardOldestPending | averages.py:32-35 | One more input forwards at most one value. Only when `delay` values were pending is the oldest pending value forwarded. The new input joins the end of the pending ones. |
| AveragesSpec.DelayedReadings | averages.py:88-125 | The values seen through a delay of 2 after each of the checks' inputs, with and without a seed. |
| Processes.OUProcess.constructor | processes.py:8-19 | Keeps the decay, the scale and a private copy of the initial state. The state is the initial state and nothing has been drawn. |
| Processes.OUProcess.Reset | processes.py:21-22 | Restores the initial state and forgets the draws. |
| Processes.OUProcess.Sample | processes.py:24-30 | Every element is decayed by `1 - theta` and gains `sigma` times its draw. The invariant holds: the state is `OURun` of all the draws since the last reset. |
| ProcessesSpec.NoiselessStep | processes.py:25-28 | Without noise, one sample scales the state by `1 - theta`. |
| ProcessesSpec.NoiselessDecay | processes.py:25-28 | Without noise, `n` samples scale the state by `(1 - theta)^n`. |
| ProcessesSpec.NoiselessContraction | processes.py:25-28 | Without noise and with `0 <= theta <= 1`, no element ever grows in magnitude. |
| Processes.NewMemories | processes.py:55 | Builds `n` fresh memories. Each is a delay of `av_delay` over an estimator seeded with 0, and no two share an object. |
| Processes.OUProcessWithMemory.constructor | processes.py:35-51 | Keeps the constants and the initial state. It starts from the initial state with fresh memories, nothing fed and nothing drawn. |
| Processes.OUProcessWithMemory.Reset | processes.py:53-55 | Restores the initial state and replaces every memory by a fresh one: an empty buffer and a held 0. The history is forgotten. |
| Processes.OUProcessWithMemory.ReadAverages | processes.py:60 | Reads one value per element of the state. Each is the delayed average `AvState` of that element's past states, and no read raises. |
| Processes.OUProcessWithMemory.FeedOne | processes.py:61-62 | Feeds one memory one value. It raises exactly when the delay is 0, and otherwise the memory's history grows by that value. |
| Processes.OUProcessWithMemory.FeedMemories | processes.py:61-62 | Each memory is fed its element of the current state, in order. With delay 0 the first one raises and nothing changes. |
| Processes.OUProcessWithMemory.Advance | processes.py:64-66 | The state becomes `state*(1 - theta) + theta*sign*av + sigma*z`. The current state joins the fed history. |
| Processes.OUProcessWithMemory.Sample | processes.py:57-68 | The new state is `MemoryStep` of the old state, with readings taken before feeding. The memories have then been fed the old state. The state stays `MemoryStates` of all the draws since the last reset. With delay 0 it raises and nothing changes. |
| Processes.ResetMatchesFreshProcess | processes.py:49-55 | After `reset`, a process samples exactly like a newly built one with the same constants and the same draws. |
| ProcessesSpec.SilentWithinDelay | processes.py:55-60 | Until more than `av_delay` states have been fed, every memory reads 0. |
| ProcessesSpec.SilentMemoryStep | processes.py:64-66 | With silent memories, a step of the process with memory is a plain Ornstein-Uhlenbeck step. |
| ProcessesSpec.EarlySamplesArePlain | processes.py:57-66 | The first `av_delay + 1` samples after a reset equal those of the plain process with the same decay, scale and draws. |
| ProcessesSpec.RecentStatesUnread | processes.py:60-62 | The memories read only states fed more than `av_delay` samples ago. Two histories that agree on those give the same readings. |
| ProcessesSpec.MemoryStatesSnoc | processes.py:57-68 | Helper unfolding of `MemoryStates`: one more draw extends the trajectory by one step from its last state. That step reads memories fed every state before it. |
| ProcessesSpec.MemoryReading | processes.py:60 | Helper unfolding of `ObserveAll` over `Forwarded`: a memory seeded with 0 and fed a column of states holds a value, namely `DelayedAverage` of that column. |
| ProcessesSpec.ColumnSnoc | processes.py:61-62 | Helper unfolding of `Column`: feeding one more state appends its element to each memory's column. |
| ProcessesSpec.PerAxisMemoriesRejectVectors | processes.py:51-60 | With one memory per axis, the readings of a length-`n` state can be reshaped to its shape if and only if `n = 1`. |

## Left out

- Random numbers: `np.random.RandomState` and its `normal` draws are not modelled. `Sample` takes the standard-normal vector `z` as an argument. The seed, and the fact that `reset` does not reseed, are outside the model.
- Averages.EWMA.constructor: takes the decay factor `gamma` rather than `halflife`, because `2^(-1/halflife)` is real exponentiation. The `ZeroDivisionError` for `halflife == 0` is not modelled. Any real `gamma` is accepted, which covers every value the source can produce.
- Floating point: values are exact reals. The `np.float32` cast of the readings (processes.py:60) and the checks' `assert_almost_equal` tolerance are not modelled.
- Array shapes: a state is a one-dimensional vector (`seq<real>`). Multi-dimensional shapes and numpy broadcasting are not modelled. `.copy()` is implicit, because sequences are values.
- Averages.DelayedStat.constructor: takes `delay: nat`, so a negative delay cannot be expressed. In the source `deque(maxlen=...)` raises `ValueError` for a negative length (averages.py:30).
- Processes.OUProcessWithMemory.constructor: takes `avDelay: nat` for the same reason. In the source a negative `av_delay` makes the constructor and `reset` raise `ValueError` when they build the memories (processes.py:55).
- Default arguments: `av_halflife=30`, `av_delay=10`, `av_sign=1.0` and `random_seed=1234` (processes.py:35) and `random_seed=1234` (processes.py:8) are not modelled. Every constant is an explicit argument, and the seed is outside the model.
- Integer arrays: an initial state of integer dtype makes the in-place `*=` raise a numpy casting error (processes.py:27, 64). States are sequences of reals, so this case cannot arise in the model.
- Processes.OUProcessWithMemory.Sample: builds one memory per element. The source builds one per axis (processes.py:51, 55), so for a length-`n` state with `n` other than 1 its first sample raises `ValueError` at processes.py:60, where the model returns the next state. See "## Findings".
- Averages.DelayedStat: always wraps an `EWMA`, not any object with `update`/`get`, because the model has no interfaces.
- Processes.OUProcessWithMemory.constructor: builds the memories once, with `reset`. The source builds them in `reset` and then again on the next line (processes.py:49-51); the first set is discarded, so the two sets of calls are not told apart.
- The `unittest` classes themselves are not modelled. The values they check are stated by the scenario members above. The two `test_runs_without_crash` checks (processes.py:74-88) are covered by `Processes.OUProcess.Sample` and `Processes.OUProcessWithMemory.Sample`: for a one-element state and `av_delay = 10`, no sample fails.

## Findings

| source | as written | input that shows it | evidently intended | confidence | as-written member | corrected member |
|---|---|---|---|---|---|---|
| processes.py:51,55,60 | `for _ in self._dim` builds one memory per axis of the shape tuple, so a vector state of length `n` gets one memory. The reshape of its single reading to shape `(n,)` then fails. | `OUProcessWithMemory(0.1, 0.01, np.zeros(2)).sample()` raises `ValueError` in `reshape` | one memory per element of the state, so that the readings always have the state's shape | not executed | ProcessesSpec.PerAxisMemoriesRejectVectors | Processes.NewMemories, Processes.OUProcessWithMemory.Reset, Processes.OUProcessWithMemory.ReadAverages |
