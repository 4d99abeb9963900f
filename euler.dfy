/**
 * A model of the step-evaluation engine of the SIRS epidemic solver.
 *
 * An `Evaluator` holds the current values of named state variables, one
 * update rule per variable name, and a history of states. One step clones
 * the whole state and then overwrites every variable that has a rule with
 * that rule applied to the clone, so all rules read the same pre-step state
 * (a simultaneous, explicit Euler update). `Evaluate` repeats the step over a
 * time range and records the state after every step; `GetDataVec` projects
 * the history onto one variable.
 *
 * The first half of the module is the specification, as functions on values:
 * `Step` (one simultaneous step), `Iterate` (n steps), `Trajectory` (the
 * states after steps 1..n), `Iterations` (how many times the time loop
 * runs) and `Column` (one variable's values along a history). The class
 * `Evaluator` is the in-place engine, proved against those functions.
 */
module Euler {

  /** A state variable's name. */
  type Name = string

  /** The full state at one instant: one value per variable name. */
  type Snapshot = map<Name, real>

  /** An update rule: from the previous step's full state, the next value of its variable. */
  type Rule = Snapshot -> real

  datatype Option<+T> = None | Some(value: T)

  // ---------------------------------------------------------------------------
  // One step
  // ---------------------------------------------------------------------------

  /**
   * The state after one simultaneous step from `vars`: a variable that has a
   * rule takes the rule's value on the whole of `vars`; a variable without a
   * rule keeps its value; a rule whose name has no value is ignored.
   */
  function Step(vars: Snapshot, rules: map<Name, Rule>): (r: Snapshot)
    ensures r.Keys == vars.Keys
  {
    map k | k in vars :: if k in rules then rules[k](vars) else vars[k]
  }

  /** One pass of the loop body over the rules: the value for `k` is computed from `copy` and stored only if `cur` already has `k`. */
  function Write(cur: Snapshot, copy: Snapshot, rules: map<Name, Rule>, k: Name): (r: Snapshot)
    ensures r.Keys == cur.Keys
    ensures k in cur ==> r[k] == if k in rules then rules[k](copy) else cur[k]
    ensures forall j :: j in cur && j != k ==> r[j] == cur[j]
  {
    if k in cur && k in rules then cur[k := rules[k](copy)] else cur
  }

  /**
   * The loop over the rules, visiting their names in the order `keys`, every
   * rule reading `copy`. `NextStep` is proved to compute it for the order in
   * which it happened to visit the rules.
   */
  function WriteAll(cur: Snapshot, copy: Snapshot, rules: map<Name, Rule>, keys: seq<Name>): (r: Snapshot)
    ensures r.Keys == cur.Keys
    decreases |keys|
  {
    if keys == [] then cur else WriteAll(Write(cur, copy, rules, keys[0]), copy, rules, keys[1..])
  }

  /** Visiting one more name after `keys` is one more loop body after the loop over `keys`. */
  lemma {:induction false} WriteAllSnoc(cur: Snapshot, copy: Snapshot, rules: map<Name, Rule>, keys: seq<Name>, k: Name)
    ensures WriteAll(cur, copy, rules, keys + [k]) == Write(WriteAll(cur, copy, rules, keys), copy, rules, k)
    decreases |keys|
  {
    if keys == [] {
      assert [] + [k] == [k];
      assert [k][1..] == [];
    } else {
      assert (keys + [k])[0] == keys[0];
      assert (keys + [k])[1..] == keys[1..] + [k];
      WriteAllSnoc(Write(cur, copy, rules, keys[0]), copy, rules, keys[1..], k);
    }
  }

  /**
   * What the loop over the rules leaves behind, in any order: exactly the
   * names of `cur`, each visited name that has a rule holding the rule's value
   * on `copy`, every other name its value in `cur`.
   */
  lemma {:induction false} WriteAllEffect(cur: Snapshot, copy: Snapshot, rules: map<Name, Rule>, keys: seq<Name>)
    ensures WriteAll(cur, copy, rules, keys)
            == map k | k in cur :: if k in rules && k in keys then rules[k](copy) else cur[k]
    decreases |keys|
  {
    if keys != [] {
      var next := Write(cur, copy, rules, keys[0]);
      WriteAllEffect(next, copy, rules, keys[1..]);
      var lhs := map k | k in next :: if k in rules && k in keys[1..] then rules[k](copy) else next[k];
      var rhs := map k | k in cur :: if k in rules && k in keys then rules[k](copy) else cur[k];
      assert next.Keys == cur.Keys;
      forall k | k in cur
        ensures lhs[k] == rhs[k]
      {
        assert k in keys <==> k == keys[0] || k in keys[1..];
      }
      assert lhs == rhs;
    }
  }

  /**
   * Iteration order does not matter: visiting every rule's name, in any
   * order and even more than once, with every rule reading the pre-step
   * copy, yields `Step`.
   */
  lemma OrderIrrelevant(vars: Snapshot, rules: map<Name, Rule>, keys: seq<Name>)
    requires forall k :: k in rules ==> k in keys
    ensures WriteAll(vars, vars, rules, keys) == Step(vars, rules)
  {
    WriteAllEffect(vars, vars, rules, keys);
  }

  /**
   * A rule registered for a name that has no value changes nothing: the step
   * with it is the step without it.
   */
  lemma InertRule(vars: Snapshot, rules: map<Name, Rule>, k: Name, f: Rule)
    requires k !in vars
    ensures Step(vars, rules[k := f]) == Step(vars, rules)
  {
  }

  /** The loop over the rules when every rule reads the live, partly updated state instead of the copy (sequential update). */
  function WriteAllLive(cur: Snapshot, rules: map<Name, Rule>, keys: seq<Name>): Snapshot
    decreases |keys|
  {
    if keys == [] then cur else WriteAllLive(Write(cur, cur, rules, keys[0]), rules, keys[1..])
  }

  /** The value of `k` in `data`, and zero where `data` has none. */
  function Lookup(data: Snapshot, k: Name): real
  {
    if k in data then data[k] else 0.0
  }

  /** The rule x' = 2 x. */
  function DoubleX(data: Snapshot): real { Lookup(data, "x") * 2.0 }

  /** The rule y' = x + y. */
  function SumXY(data: Snapshot): real { Lookup(data, "x") + Lookup(data, "y") }

  /**
   * Simultaneity on a concrete system: x = 1 with x' = 2 x and y = 10 with
   * y' = x + y. One step gives y = 11, from the old x. Letting the rule for y
   * read the state after x was already updated would give 12 instead.
   */
  lemma SimultaneousUpdate()
    ensures var vars := map["x" := 1.0, "y" := 10.0];
            var rules := map["x" := DoubleX, "y" := SumXY];
            && Step(vars, rules) == map["x" := 2.0, "y" := 11.0]
            && WriteAll(vars, vars, rules, ["y", "x"]) == map["x" := 2.0, "y" := 11.0]
            && WriteAllLive(vars, rules, ["x", "y"])["y"] == 12.0
  {
  }

  // ---------------------------------------------------------------------------
  // Many steps
  // ---------------------------------------------------------------------------

  /** The state after `n` steps from `vars`. */
  function Iterate(vars: Snapshot, rules: map<Name, Rule>, n: nat): Snapshot
  {
    if n == 0 then vars else Step(Iterate(vars, rules, n - 1), rules)
  }

  /** Any number of steps keeps the variables of the starting state, no more and no fewer. */
  lemma {:induction false} IterateKeys(vars: Snapshot, rules: map<Name, Rule>, n: nat)
    ensures Iterate(vars, rules, n).Keys == vars.Keys
  {
    if n > 0 {
      IterateKeys(vars, rules, n - 1);
    }
  }

  /** Running `m` steps and then `n` more is running `m + n` steps. */
  lemma {:induction false} IterateAdd(vars: Snapshot, rules: map<Name, Rule>, m: nat, n: nat)
    ensures Iterate(Iterate(vars, rules, m), rules, n) == Iterate(vars, rules, m + n)
  {
    if n > 0 {
      IterateAdd(vars, rules, m, n - 1);
    }
  }

  /**
   * The history that `n` steps from `vars` record: entry `i` is the state after
   * step `i + 1`; the starting state itself is not recorded.
   */
  function Trajectory(vars: Snapshot, rules: map<Name, Rule>, n: nat): (h: seq<Snapshot>)
    ensures |h| == n
    ensures forall i :: 0 <= i < n ==> h[i] == Iterate(vars, rules, i + 1)
  {
    if n == 0 then [] else Trajectory(vars, rules, n - 1) + [Iterate(vars, rules, n)]
  }

  /** Every recorded state has the variables of the starting state, no more and no fewer. */
  lemma TrajectoryKeys(vars: Snapshot, rules: map<Name, Rule>, n: nat)
    ensures forall i :: 0 <= i < n ==> Trajectory(vars, rules, n)[i].Keys == vars.Keys
  {
    forall i | 0 <= i < n
      ensures Trajectory(vars, rules, n)[i].Keys == vars.Keys
    {
      IterateKeys(vars, rules, i + 1);
    }
  }

  /**
   * Two runs in a row record the same history as one run of their combined
   * length: the `m` states of the first run, then the `n` states of a run
   * that starts where the first one stopped.
   */
  lemma {:induction false} TrajectoryAdd(vars: Snapshot, rules: map<Name, Rule>, m: nat, n: nat)
    ensures Trajectory(vars, rules, m + n)
            == Trajectory(vars, rules, m) + Trajectory(Iterate(vars, rules, m), rules, n)
  {
    var whole := Trajectory(vars, rules, m + n);
    var first := Trajectory(vars, rules, m);
    var rest := Trajectory(Iterate(vars, rules, m), rules, n);
    forall i | 0 <= i < m + n
      ensures whole[i] == (first + rest)[i]
    {
      if i < m {
        assert whole[i] == Iterate(vars, rules, i + 1) == first[i];
      } else {
        IterateAdd(vars, rules, m, i - m + 1);
        assert rest[i - m] == Iterate(Iterate(vars, rules, m), rules, i - m + 1);
      }
    }
    assert whole == first + rest;
  }

  /**
   * How many times the time loop runs for a cursor that starts at
   * `timeBegin`, advances by `timeDelta` and runs while it is at most
   * `timeEnd`, in exact arithmetic.
   */
  function Iterations(timeBegin: real, timeEnd: real, timeDelta: real): (n: nat)
    requires timeDelta > 0.0
    ensures n == 0 <==> timeEnd < timeBegin
  {
    if timeEnd < timeBegin then 0 else ((timeEnd - timeBegin) / timeDelta).Floor + 1
  }

  /** Advancing the cursor once, from a value at most `timeEnd`, leaves one iteration fewer. */
  lemma IterationsStep(cursor: real, timeEnd: real, timeDelta: real)
    requires timeDelta > 0.0 && cursor <= timeEnd
    ensures Iterations(cursor + timeDelta, timeEnd, timeDelta) + 1 == Iterations(cursor, timeEnd, timeDelta)
  {
    var q := (timeEnd - cursor) / timeDelta;
    assert q * timeDelta == timeEnd - cursor;
    var q' := (timeEnd - (cursor + timeDelta)) / timeDelta;
    assert q' == q - 1.0 by {
      assert timeEnd - (cursor + timeDelta) == (timeEnd - cursor) - timeDelta;
      DivShift(timeEnd - cursor, timeDelta);
    }
    if timeEnd < cursor + timeDelta {
      assert q < 1.0;
    } else {
      assert (q - 1.0).Floor == q.Floor - 1;
    }
  }

  /** Taking one `d` off the dividend takes one off the quotient. */
  lemma DivShift(a: real, d: real)
    requires d > 0.0
    ensures (a - d) / d == a / d - 1.0
  {
    assert (a - d) / d == a / d - d / d;
  }

  /** `a <= b` scales by a positive factor. */
  lemma ScaleMonotonic(a: real, b: real, d: real)
    requires a <= b && d > 0.0
    ensures a * d <= b * d
  {
  }

  /** The cursor after `k` advances from `timeBegin`, each advance adding `timeDelta`, in exact arithmetic. */
  function Cursor(timeBegin: real, timeDelta: real, k: nat): (c: real)
    ensures c == timeBegin + (k as real) * timeDelta
  {
    if k == 0 then timeBegin else Cursor(timeBegin, timeDelta, k - 1) + timeDelta
  }

  /**
   * `Iterations` counts exactly the cursor values the loop visits: the
   * cursor after `k` advances is at most `timeEnd` for every `k` below the
   * count, and the cursor after as many advances as the count is past it.
   */
  lemma IterationsCount(timeBegin: real, timeEnd: real, timeDelta: real)
    requires timeDelta > 0.0
    ensures var n := Iterations(timeBegin, timeEnd, timeDelta);
            && (forall k: nat :: k < n ==> Cursor(timeBegin, timeDelta, k) <= timeEnd)
            && timeEnd < Cursor(timeBegin, timeDelta, n)
  {
    var n := Iterations(timeBegin, timeEnd, timeDelta);
    if timeBegin <= timeEnd {
      var q := (timeEnd - timeBegin) / timeDelta;
      assert q * timeDelta == timeEnd - timeBegin;
      assert (n - 1) as real <= q < n as real;
      forall k: nat | k < n
        ensures Cursor(timeBegin, timeDelta, k) <= timeEnd
      {
        ScaleMonotonic(k as real, q, timeDelta);
      }
      ScaleMonotonic(q, n as real, timeDelta);
      assert q * timeDelta != (n as real) * timeDelta by {
        assert (n as real - q) * timeDelta > 0.0;
      }
    } else {
      assert n == 0;
    }
  }

  /** With time running from 0 to 1 in steps of 0.5, the loop runs for cursors 0, 0.5 and 1: three times. */
  lemma ThreeIterations()
    ensures Iterations(0.0, 1.0, 0.5) == 3
  {
  }

  // ---------------------------------------------------------------------------
  // One variable along a history
  // ---------------------------------------------------------------------------

  /** Every state of `h` has a value for `name`. */
  predicate InEvery(h: seq<Snapshot>, name: Name)
  {
    forall i :: 0 <= i < |h| ==> name in h[i]
  }

  /** The values of `name` along `h`, in order. */
  function Column(h: seq<Snapshot>, name: Name): (r: seq<real>)
    requires InEvery(h, name)
    ensures |r| == |h|
    ensures forall i :: 0 <= i < |h| ==> r[i] == h[i][name]
  {
    if h == [] then [] else [h[0][name]] + Column(h[1..], name)
  }

  /** The series of a history that grew by appending is the old series followed by the series of what was appended. */
  lemma ColumnAppend(h1: seq<Snapshot>, h2: seq<Snapshot>, name: Name)
    requires InEvery(h1, name) && InEvery(h2, name)
    ensures InEvery(h1 + h2, name)
    ensures Column(h1 + h2, name) == Column(h1, name) + Column(h2, name)
  {
  }

  /**
   * A variable of the starting state can be read off every recorded state,
   * and its series holds its value after step 1, step 2, and so on.
   */
  lemma TrajectoryColumn(vars: Snapshot, rules: map<Name, Rule>, n: nat, name: Name)
    requires name in vars
    ensures InEvery(Trajectory(vars, rules, n), name)
    ensures forall i :: 1 <= i <= n ==> name in Iterate(vars, rules, i)
    ensures forall i :: 0 <= i < n ==> Column(Trajectory(vars, rules, n), name)[i] == Iterate(vars, rules, i + 1)[name]
  {
    TrajectoryKeys(vars, rules, n);
    forall i | 1 <= i <= n
      ensures name in Iterate(vars, rules, i)
    {
      IterateKeys(vars, rules, i);
    }
  }

  // ---------------------------------------------------------------------------
  // The engine
  // ---------------------------------------------------------------------------

  class Evaluator {
    /** The current value of every variable. */
    var variables: Snapshot
    /** The update rule of each variable name. */
    var functions: map<Name, Rule>
    /** The state after every completed step, oldest first. */
    var history: seq<Snapshot>

    /** Variables are never removed, so every recorded state names only variables the evaluator still has. */
    ghost predicate Valid()
      reads this
    {
      forall i :: 0 <= i < |history| ==> history[i].Keys <= variables.Keys
    }

    /** An evaluator with no variables, no rules and an empty history. */
    constructor ()
      ensures Valid()
      ensures variables == map[] && functions == map[] && history == []
    {
      variables := map[];
      functions := map[];
      history := [];
    }

    /** Sets the value of `key`, adding the variable if it is new. */
    method AddStartValue(key: Name, value: real)
      requires Valid()
      modifies this
      ensures Valid()
      ensures variables == old(variables)[key := value]
      ensures variables.Keys == old(variables).Keys + {key} && variables[key] == value
      ensures forall k :: k in old(variables) && k != key ==> variables[k] == old(variables)[k]
      ensures functions == old(functions) && history == old(history)
    {
      variables := variables[key := value];
    }

    /** Sets the rule of `key`, whether or not `key` has a value yet. */
    method AddFunction(key: Name, value: Rule)
      requires Valid()
      modifies this
      ensures Valid()
      ensures functions == old(functions)[key := value]
      ensures functions.Keys == old(functions).Keys + {key} && functions[key] == value
      ensures forall k :: k in old(functions) && k != key ==> functions[k] == old(functions)[k]
      ensures variables == old(variables) && history == old(history)
    {
      functions := functions[key := value];
    }

    /**
     * One simultaneous step: the state is copied once, then the rules are
     * visited in an unspecified order and each variable that has a rule is
     * overwritten with the rule's value on the copy.
     */
    method NextStep() returns (ghost order: seq<Name>)
      requires Valid()
      modifies this
      ensures Valid()
      ensures forall k :: k in order <==> k in functions
      ensures forall i, j :: 0 <= i < j < |order| ==> order[i] != order[j]
      ensures variables == WriteAll(old(variables), old(variables), functions, order)
      ensures variables == Step(old(variables), functions)
      ensures variables.Keys == old(variables).Keys
      ensures forall k :: k in variables ==>
                variables[k] == if k in functions then functions[k](old(variables)) else old(variables)[k]
      ensures functions == old(functions) && history == old(history)
    {
      var copy := variables;
      var pending := functions.Keys;
      order := [];
      while pending != {}
        invariant pending <= functions.Keys
        invariant forall k :: k in functions ==> (k in pending <==> k !in order)
        invariant forall k :: k in order ==> k in functions
        invariant forall i, j :: 0 <= i < j < |order| ==> order[i] != order[j]
        invariant functions == old(functions) && history == old(history)
        invariant variables == WriteAll(copy, copy, functions, order)
        decreases pending
      {
        var key :| key in pending;
        WriteAllSnoc(copy, copy, functions, order, key);
        if key in variables {
          variables := variables[key := functions[key](copy)];
        }
        order := order + [key];
        pending := pending - {key};
      }
      OrderIrrelevant(copy, functions, order);
    }

    /**
     * Runs the simulation from `timeBegin` to `timeEnd` in steps of
     * `timeDelta`: while the cursor is at most `timeEnd`, one step, then the
     * cursor advances, then the new state is appended to the history.
     */
    method Evaluate(timeBegin: real, timeEnd: real, timeDelta: real)
      requires Valid()
      requires timeDelta > 0.0
      modifies this
      ensures Valid()
      ensures functions == old(functions)
      ensures variables == Iterate(old(variables), functions, Iterations(timeBegin, timeEnd, timeDelta))
      ensures history == old(history) + Trajectory(old(variables), functions, Iterations(timeBegin, timeEnd, timeDelta))
      ensures forall i :: |old(history)| <= i < |history| ==> history[i].Keys == old(variables).Keys
      ensures timeEnd < timeBegin ==> variables == old(variables) && history == old(history)
    {
      ghost var start := variables;
      ghost var total := Iterations(timeBegin, timeEnd, timeDelta);
      ghost var done: nat := 0;
      var cursor := timeBegin;
      while cursor <= timeEnd
        invariant Valid()
        invariant functions == old(functions)
        invariant done + Iterations(cursor, timeEnd, timeDelta) == total
        invariant variables == Iterate(start, functions, done)
        invariant history == old(history) + Trajectory(start, functions, done)
        decreases Iterations(cursor, timeEnd, timeDelta)
      {
        IterationsStep(cursor, timeEnd, timeDelta);
        ghost var order := NextStep();
        cursor := cursor + timeDelta;
        history := history + [variables];
        done := done + 1;
      }
      TrajectoryKeys(start, functions, total);
    }

    /**
     * A name the evaluator has no value for is in no recorded state, so its
     * series cannot be read from a non-empty history.
     */
    lemma UnknownNameUnrecorded(name: Name)
      requires Valid() && name !in variables
      ensures forall i :: 0 <= i < |history| ==> name !in history[i]
      ensures |history| > 0 ==> !InEvery(history, name)
    {
      if |history| > 0 {
        assert name !in history[0];
      }
    }

    /**
     * The values of `datasetName` along the history, oldest first. The name
     * must be in every recorded state: the source aborts otherwise.
     */
    function GetDataVec(datasetName: Name): (r: Option<seq<real>>)
      reads this
      requires InEvery(history, datasetName)
      ensures r.Some? && |r.value| == |history|
      ensures forall i :: 0 <= i < |history| ==> r.value[i] == history[i][datasetName]
    {
      Some(Column(history, datasetName))
    }
  }

  // ---------------------------------------------------------------------------
  // The unit test
  // ---------------------------------------------------------------------------

  /** The rule TEST' = 2 TEST, made total: 0 where the source's closure would abort. */
  function DoubleTest(data: Snapshot): real
  {
    Lookup(data, "TEST") * 2.0
  }

  /** 2 to the power `n`. */
  function Pow2(n: nat): real
  {
    if n == 0 then 1.0 else 2.0 * Pow2(n - 1)
  }

  /** From TEST = 1 under the rule TEST' = 2 TEST, the state after `n` steps is TEST = 2^n. */
  lemma {:induction false} Doubling(n: nat)
    ensures Iterate(map["TEST" := 1.0], map["TEST" := DoubleTest], n) == map["TEST" := Pow2(n)]
  {
    if n > 0 {
      Doubling(n - 1);
      var before := map["TEST" := Pow2(n - 1)];
      var after := Step(before, map["TEST" := DoubleTest]);
      assert after.Keys == {"TEST"};
      assert after["TEST"] == DoubleTest(before) == Pow2(n);
      assert after == map["TEST" := Pow2(n)];
    }
  }

  /** TEST starts at 1 with the rule TEST' = 2 TEST; one step gives 2. */
  method StepCheck() returns (test: real)
    ensures test == 2.0
  {
    var e := new Evaluator();
    e.AddStartValue("TEST", 1.0);
    e.AddFunction("TEST", DoubleTest);
    ghost var order := e.NextStep();
    test := e.variables["TEST"];
  }

  /** The first three states recorded from TEST = 1 under TEST' = 2 TEST are TEST = 2, 4 and 8. */
  lemma DoublingTrajectory()
    ensures Trajectory(map["TEST" := 1.0], map["TEST" := DoubleTest], 3)
            == [map["TEST" := 2.0], map["TEST" := 4.0], map["TEST" := 8.0]]
  {
    Doubling(1);
    Doubling(2);
    Doubling(3);
  }

  /**
   * The same evaluator run from time 0 to 1 in steps of 0.5 records three
   * states, and the series of TEST is 2, 4, 8.
   */
  method EvaluateCheck() returns (series: Option<seq<real>>)
    ensures series == Some([2.0, 4.0, 8.0])
  {
    var e := new Evaluator();
    e.AddStartValue("TEST", 1.0);
    e.AddFunction("TEST", DoubleTest);
    assert e.variables == map["TEST" := 1.0] && e.functions == map["TEST" := DoubleTest];
    ThreeIterations();
    DoublingTrajectory();
    e.Evaluate(0.0, 1.0, 0.5);
    ghost var h := e.history;
    assert h == [map["TEST" := 2.0], map["TEST" := 4.0], map["TEST" := 8.0]];
    series := e.GetDataVec("TEST");
    SeriesOfThree(h, series.value);
  }

  /** The series of TEST along the states TEST = 2, 4, 8. */
  lemma SeriesOfThree(h: seq<Snapshot>, values: seq<real>)
    requires h == [map["TEST" := 2.0], map["TEST" := 4.0], map["TEST" := 8.0]]
    requires |values| == |h| && forall i :: 0 <= i < |h| ==> values[i] == h[i]["TEST"]
    ensures values == [2.0, 4.0, 8.0]
  {
    assert values[0] == 2.0 && values[1] == 4.0 && values[2] == 8.0;
  }
}
