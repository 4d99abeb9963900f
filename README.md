# Euler step evaluator of the SIRS solver, in Dafny

This project models the `Evaluator` of the SIRS-modeller repository
(`src/evaluator.rs`): the engine that advances named state variables by
explicit Euler steps. It holds three things:

- `variables`: the current value of each variable name;
- `functions`: one update rule per variable name; a rule reads the previous
  step's full state and returns the variable's next value;
- `history`: the state after every completed step, oldest first.

One step (`next_step`) copies the state once. It then visits the rules in
the hash map's order and overwrites each variable that has a rule with that
rule applied to the copy. So every rule reads the same pre-step state, and
the order of the visits cannot change the outcome. `evaluate` runs a time
cursor from `time_begin` while it is at most `time_end`. Each iteration
takes a step, advances the cursor by `time_delta` and appends the new state
to the history. `get_data_vec` returns one variable's values along the
history.

Everything is in `euler.dfy`, in the module `Euler`:

- Specification functions on values:
  - `Step`: one simultaneous step.
  - `Iterate`: `n` steps.
  - `Trajectory`: the states after steps 1 to `n`.
  - `Iterations`: how many times the time loop runs, in exact arithmetic.
  - `Column`: one variable's values along a history.
  - `Write` and `WriteAll`: one body of the loop over the rules, and the
    loop in one explicit order, every rule reading the copy. `NextStep` is
    proved to compute `WriteAll` over the order it visited the rules in.
  - `WriteAllLive`: for contrast, the same loop with rules reading the live
    state.
  - `Cursor`: the time cursor after `k` advances.
- The class `Euler.Evaluator`: it has the source's three fields. Its methods
  update them in place and are proved against the specification functions.
  Its object invariant `Valid` says that no recorded state names a variable
  the evaluator no longer has; variables are never removed.
- `StepCheck`: the repository's `step_check` unit test. `EvaluateCheck`: the
  same evaluator run over a time range.

Representation choices:

- Values and times are `real`, not `f32`.
- Update rules are Dafny function values `map<string, real> -> real`.
- Hash maps are Dafny `map`s. `NextStep` picks the next rule to visit with
  `:|`, so its proof covers every visiting order.

Where the code's signatures suggest more than its bodies do, the model
follows the bodies:

- `get_data_vec` returns an `Option` (src/evaluator.rs:68), under a
  "TODO: improve logic" comment (line 67), which suggests `None` for a
  missing name. The body never produces `None`: it unwraps every lookup and
  aborts when a recorded state lacks the name. The model puts a precondition
  there and always returns `Some`.
- A rule may be registered for a name that has no value. Nothing checks
  this; the rule is skipped at every step. `InertRule` proves it is inert.

## Model

| member | source | states |
|---|---|---|
| `Euler.Evaluator.constructor` | src/evaluator.rs:21-27 | a new evaluator has no variables, no rules and an empty history |
| `Euler.Evaluator.AddStartValue` | src/evaluator.rs:37-39 | the key is added or overwritten with the value; every other variable keeps its value; rules and history are untouched |
| `Euler.Evaluator.AddFunction` | src/evaluator.rs:41-43 | the rule of the key is added or replaced; every other rule is kept; variables and history are untouched |
| `Euler.Evaluator.NextStep` | src/evaluator.rs:45-56 | the rules are visited in some order that lists every rule name once; the new state is `WriteAll` over that order from the copy, and equals `Step` of the old state: same key set; each variable with a rule gets the rule applied to the pre-step state; others keep their value; rules and history are unchanged |
| `Euler.Evaluator.Evaluate` | src/evaluator.rs:58-65 | history becomes the old history followed by `Trajectory` over `Iterations` steps; entry `i` appended is the state after `i + 1` steps; each appended state has the entry key set; the variables end at `Iterate`; rules unchanged; with `time_end < time_begin` nothing changes |
| `Euler.Evaluator.UnknownNameUnrecorded` | src/evaluator.rs:68-70 | a name without a value is in no recorded state, so on a non-empty history the name fails the precondition that stands for the abort at line 69 |
| `Euler.Evaluator.GetDataVec` | src/evaluator.rs:68-70 | for a name present in every recorded state, `Some` of a sequence as long as the history whose entry `i` is the name's value in state `i` (an empty history gives `Some([])`) |
| `Euler.Step` | src/evaluator.rs:51-55 | a step never adds or removes a variable |
| `Euler.Write` | src/evaluator.rs:52-54 | one loop body: the key set is unchanged; the visited name, if it has a value, gets its rule applied to the copy; every other variable keeps its value |
| `Euler.WriteAll` | src/evaluator.rs:51-55 | the rule loop in one explicit visiting order never adds or removes a variable |
| `Euler.WriteAllSnoc` | src/evaluator.rs:51-55 | visiting one more name after a sequence of names is one more loop body after the loop over that sequence |
| `Euler.WriteAllEffect` | src/evaluator.rs:51-55 | the rule loop, in any order of names: keys unchanged; each visited name with a rule holds the rule's value on the copy; every other name keeps its value |
| `Euler.OrderIrrelevant` | src/evaluator.rs:45-56 | visiting all rule names in any order, repeats allowed, with all rules reading the copy, gives exactly `Step` |
| `Euler.InertRule` | src/evaluator.rs:51-53 | adding a rule for a name that has no value leaves the step's result unchanged |
| `Euler.SimultaneousUpdate` | src/evaluator.rs:45-56 | with x = 1 (x' = 2x) and y = 10 (y' = x + y), a step gives x = 2 and y = 11 in either visiting order; a loop whose rules read the live state would give y = 12 |
| `Euler.Iterate` | src/evaluator.rs:58-65 | the state after `n` calls of `next_step`; its properties are stated by `IterateKeys` and `IterateAdd` |
| `Euler.IterateKeys` | src/evaluator.rs:58-65 | any number of steps keeps the key set of the starting state |
| `Euler.IterateAdd` | src/evaluator.rs:58-65 | `m` steps followed by `n` steps equal `m + n` steps |
| `Euler.Trajectory` | src/evaluator.rs:58-65 | the history recorded by `n` steps has length `n`; entry `i` is the state after `i + 1` steps; the start state is not recorded |
| `Euler.TrajectoryKeys` | src/evaluator.rs:58-65 | every recorded state has exactly the starting state's variables |
| `Euler.TrajectoryAdd` | src/evaluator.rs:58-65 | a run of `m + n` steps records the run of `m` steps followed by a run of `n` steps from where it stopped |
| `Euler.Iterations` | src/evaluator.rs:59-62 | how many times the `while` body runs, in exact arithmetic; zero exactly when `time_end < time_begin` |
| `Euler.Cursor` | src/evaluator.rs:59-62 | the cursor `iter` after `k` advances by `time_delta`, each adding `time_delta`, equals `time_begin + k * time_delta` |
| `Euler.IterationsStep` | src/evaluator.rs:59-62 | advancing a cursor that is at most `time_end` leaves exactly one iteration fewer |
| `Euler.IterationsCount` | src/evaluator.rs:59-62 | the iteration count `n` is exact: the cursor after `k < n` advances is at most `time_end`, the cursor after `n` advances is past it |
| `Euler.ThreeIterations` | src/evaluator.rs:58-65 | time 0 to 1 in steps of 0.5 runs the loop three times |
| `Euler.Column` | src/evaluator.rs:69 | the projection of a history has its length and entry `i` is the name's value in state `i` |
| `Euler.ColumnAppend` | src/evaluator.rs:68-70 | the series of a history grown by appending is the old series followed by the appended states' series |
| `Euler.TrajectoryColumn` | src/evaluator.rs:58-70 | a starting variable can be read off every recorded state; its series entry `i` is its value after `i + 1` steps |
| `Euler.DoubleTest` | src/evaluator.rs:78 | the test closure `data["TEST"] * 2` made total (0 where it would abort); it has no contract of its own; its effect is stated by `Doubling` and `StepCheck` |
| `Euler.StepCheck` | src/evaluator.rs:77-95 | TEST = 1 with rule TEST' = 2 TEST gives TEST = 2 after one step |
| `Euler.Doubling` | src/evaluator.rs:77-83 | from TEST = 1 under the test's rule TEST' = 2 TEST, the state after `n` steps is exactly TEST = 2^n |
| `Euler.DoublingTrajectory` | src/evaluator.rs:77-83 | the first three states recorded under the test's rule are TEST = 2, 4 and 8 |
| `Euler.EvaluateCheck` | src/evaluator.rs:77-83 | that evaluator, run from 0 to 1 in steps of 0.5, records three states; the series of TEST is 2, 4, 8 |

## Left out

- `src/main.rs` is not part of this model:
  - argument parsing and the abort on missing flags;
  - the three SIRS update rules, which are `f32` arithmetic;
  - CSV printing indexed by step number.
- `f32` semantics: rounding of values and of the cursor. In the source the
  cursor is an `f32` that `time_delta` is added to again and again, and the
  rounding error grows with the number of steps. It is not bounded by one
  iteration: past 8192 the `f32` spacing is 2^-10, so adding 0.01 advances
  the cursor by 0.009765625 and a run to 10000 takes thousands of extra
  iterations. The source can even loop forever with a positive
  `time_delta`: at 2^24, adding 1.0 rounds back to the same value, so
  `evaluate(0.0, 3e7, 1.0)` never ends. The model does time in exact reals:
  with `time_delta > 0` it always stops after exactly `Iterations` steps, and
  it cannot show either effect. Infinities and NaN are not modelled either:
  with `time_end` infinite the source's loop never ends, and with a NaN
  bound or start `iter <= time_end` is false at once, so nothing runs.
- Euler.Evaluator.Evaluate: requires `time_delta > 0`. With a zero or
  negative delta the source loops forever or never runs the loop; that is
  not modelled.
- Update rules are total functions. In the source a rule that indexes a
  missing name aborts the process; the model's rules cannot fail. The test
  rules use `Lookup`, which gives 0 for a missing name; this never happens in
  the test.
- `history` is a public field in the source, so a caller could replace it
  with states that name variables the evaluator does not have. The model's
  methods require the object invariant `Valid`, which every method keeps;
  a history edited from outside, breaking it, is not modelled.
- Euler.Evaluator.GetDataVec: requires the name in every recorded state.
  This stands in for the source's abort on a missing name. The source's
  `None` result is never produced.
- Hash-map hashing and iteration order, and boxed closure mechanics. The
  order is left arbitrary, and independence of the order is proved.
- The commented-out variant of the step loop (src/evaluator.rs:47-50).
- The `creation_check` test only builds the evaluator. `StepCheck` and
  `EvaluateCheck` build it the same way.
