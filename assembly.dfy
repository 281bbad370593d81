/**
 * The record assembler (Model.GenerateOne and Model.Generate) as functions over the
 * states of the field objects. `K` stands for the identity of a field object: one object
 * may be declared under two names, and then both declarations advance the same state.
 */
module Assembly {
  import opened Outcomes
  import opened Records
  import opened Sources
  import opened Fields

  /** Every declared field object has a state. */
  ghost predicate Declared<K>(fields: seq<(string, K)>, states: map<K, FieldState>)
  {
    forall i :: 0 <= i < |fields| ==> fields[i].1 in states
  }

  /** What a run produced, and the field objects' states afterwards (advanced up to the failing field on an error). */
  datatype Run<K> = Run(outcome: Result<Record>, states: map<K, FieldState>)

  /** The loop of GenerateOne from field `j` on, with `partial` holding what the earlier fields wrote. */
  function RunFrom<K(==)>(fields: seq<(string, K)>, j: nat, partial: Record, states: map<K, FieldState>,
                          draws: nat -> nat): (run: Run<K>)
    requires j <= |fields| && Declared(fields, states)
    ensures run.states.Keys == states.Keys
    decreases |fields| - j
  {
    if j == |fields| then Run(Ok(partial), states)
    else
      var d := fields[j].1;
      var s := Produce(states[d], partial, draws(j));
      var states' := states[d := s.state];
      match s.out
      case Err(e) => Run(Err(e), states')
      case Ok(v) => RunFrom(fields, j + 1, Put(partial, fields[j].0, v), states', draws)
  }

  /** One iteration of the loop: field `j` either fails the record or stores its value and hands on. */
  lemma RunFromStep<K>(fields: seq<(string, K)>, j: nat, partial: Record, states: map<K, FieldState>,
                       draws: nat -> nat, out: Result<Value>, next: FieldState)
    requires j < |fields| && Declared(fields, states)
    requires Step(out, next) == Produce(states[fields[j].1], partial, draws(j))
    ensures out.Err? ==> RunFrom(fields, j, partial, states, draws) == Run(Err(out.error), states[fields[j].1 := next])
    ensures out.Ok? ==> RunFrom(fields, j, partial, states, draws)
                          == RunFrom(fields, j + 1, Put(partial, fields[j].0, out.value), states[fields[j].1 := next], draws)
  {
  }

  /** GenerateOne: field `j` draws `draws(j)`. */
  function GenerateOne<K(==)>(fields: seq<(string, K)>, states: map<K, FieldState>, draws: nat -> nat): Run<K>
    requires Declared(fields, states)
  {
    RunFrom(fields, 0, [], states, draws)
  }

  datatype Batch<K> = Batch(outcome: Result<seq<Record>>, states: map<K, FieldState>)

  /** The loop of Generate from record `k` on, `acc` holding the records made so far. */
  function RepeatFrom<K(==)>(fields: seq<(string, K)>, k: nat, count: nat, acc: seq<Record>,
                             states: map<K, FieldState>, draws: nat -> nat -> nat): (b: Batch<K>)
    requires k <= count && Declared(fields, states)
    ensures b.states.Keys == states.Keys
    decreases count - k
  {
    if k == count then Batch(Ok(acc), states)
    else
      var one := GenerateOne(fields, states, draws(k));
      match one.outcome
      case Err(e) => Batch(Err(e), one.states)
      case Ok(rec) => RepeatFrom(fields, k + 1, count, acc + [rec], one.states, draws)
  }

  /** Generate(count): record `k` draws `draws(k)`. */
  function Generate<K(==)>(fields: seq<(string, K)>, count: int, states: map<K, FieldState>,
                           draws: nat -> nat -> nat): Batch<K>
    requires Declared(fields, states)
  {
    if count < 0 then Batch(Err(AssertionError), states)
    else RepeatFrom(fields, 0, count, [], states, draws)
  }

  // ---------------------------------------------------------------------------------
  // One record

  /** Generation changes no field's configuration, only generators and branch caches. */
  lemma {:induction false} RunKeepsConfig<K>(fields: seq<(string, K)>, j: nat, partial: Record,
                                               states: map<K, FieldState>, draws: nat -> nat)
    requires j <= |fields| && Declared(fields, states)
    ensures var run := RunFrom(fields, j, partial, states, draws);
      forall x :: x in states ==> SameConfig(states[x], run.states[x])
    decreases |fields| - j
  {
    if j < |fields| {
      var d := fields[j].1;
      var s := Produce(states[d], partial, draws(j));
      if s.out.Ok? {
        RunKeepsConfig(fields, j + 1, Put(partial, fields[j].0, s.out.value), states[d := s.state], draws);
      }
    }
  }

  /** A field object not declared from `j` on keeps its state. */
  lemma {:induction false} RunUntouched<K>(fields: seq<(string, K)>, j: nat, partial: Record,
                                             states: map<K, FieldState>, draws: nat -> nat, x: K)
    requires j <= |fields| && Declared(fields, states) && x in states
    requires forall i :: j <= i < |fields| ==> fields[i].1 != x
    ensures RunFrom(fields, j, partial, states, draws).states[x] == states[x]
    decreases |fields| - j
  {
    if j < |fields| {
      var d := fields[j].1;
      var s := Produce(states[d], partial, draws(j));
      if s.out.Ok? {
        RunUntouched(fields, j + 1, Put(partial, fields[j].0, s.out.value), states[d := s.state], draws, x);
      }
    }
  }

  /**
   * With unique names, a completed record has one entry per field, keyed by the declared
   * names in declaration order, and begins with the partial record it was started from.
   */
  lemma {:induction false} RunShape<K>(fields: seq<(string, K)>, j: nat, partial: Record,
                                         states: map<K, FieldState>, draws: nat -> nat)
    requires j <= |fields| && Declared(fields, states) && UniqueKeys(fields)
    requires Keys(partial) == Keys(fields)[..j]
    ensures var run := RunFrom(fields, j, partial, states, draws);
      run.outcome.Ok? ==>
        && Keys(run.outcome.value) == Keys(fields)
        && |run.outcome.value| == |fields|
        && run.outcome.value[..j] == partial
    decreases |fields| - j
  {
    if j == |fields| {
      assert Keys(fields)[..j] == Keys(fields);
    } else {
      var d := fields[j].1;
      var s := Produce(states[d], partial, draws(j));
      if s.out.Ok? {
        var name := fields[j].0;
        PutNextField(fields, j, partial, s.out.value);
        var next := partial + [(name, s.out.value)];
        RunShape(fields, j + 1, next, states[d := s.state], draws);
        var run := RunFrom(fields, j + 1, next, states[d := s.state], draws);
        if run.outcome.Ok? {
          assert run.outcome.value[..j] == run.outcome.value[..j + 1][..j];
        }
      }
    }
  }

  /** With unique names, storing field `j`'s value after the first `j` entries appends it under a new key. */
  lemma PutNextField<K>(fields: seq<(string, K)>, j: nat, partial: Record, v: Value)
    requires j < |fields| && UniqueKeys(fields) && Keys(partial) == Keys(fields)[..j]
    ensures Put(partial, fields[j].0, v) == partial + [(fields[j].0, v)]
    ensures Keys(partial + [(fields[j].0, v)]) == Keys(fields)[..j + 1]
  {
    var name := fields[j].0;
    assert name !in Keys(partial) by {
      forall i | 0 <= i < j ensures Keys(partial)[i] != name {
        assert Keys(partial)[i] == Keys(fields)[i] == fields[i].0;
      }
    }
    PutNew(partial, name, v);
    assert Keys(partial + [(name, v)]) == Keys(fields)[..j + 1];
  }

  /**
   * Running the first `j` fields and then the rest from where they stopped is the same as
   * running them all; a failure among the first `j` is the failure of the whole record.
   */
  lemma {:induction false} RunSplit<K>(fields: seq<(string, K)>, j: nat, m: nat, partial: Record,
                                         states: map<K, FieldState>, draws: nat -> nat)
    requires m <= j <= |fields| && Declared(fields, states)
    ensures Declared(fields[..j], states)
    ensures var pre := RunFrom(fields[..j], m, partial, states, draws);
      && (pre.outcome.Ok? ==> RunFrom(fields, m, partial, states, draws)
                                == RunFrom(fields, j, pre.outcome.value, pre.states, draws))
      && (pre.outcome.Err? ==> RunFrom(fields, m, partial, states, draws) == pre)
    decreases j - m
  {
    var prefix := fields[..j];
    assert forall i :: 0 <= i < j ==> prefix[i] == fields[i];
    if m < j {
      var d := fields[m].1;
      var s := Produce(states[d], partial, draws(m));
      if s.out.Ok? {
        RunSplit(fields, j, m + 1, Put(partial, fields[m].0, s.out.value), states[d := s.state], draws);
      }
    }
  }

  /** The state of every field object and the partial record just before field `j` runs. */
  function Before<K(==)>(fields: seq<(string, K)>, j: nat, states: map<K, FieldState>, draws: nat -> nat): Run<K>
    requires j <= |fields| && Declared(fields, states)
  {
    RunSplit(fields, j, 0, [], states, draws);
    RunFrom(fields[..j], 0, [], states, draws)
  }

  /**
   * Declaration order: in a completed record with unique names, field `j` was produced
   * from exactly the entries of the fields declared before it, in the state its object
   * had after those fields ran, and its value is what it produced.
   */
  lemma FieldSeesEarlierFields<K>(fields: seq<(string, K)>, states: map<K, FieldState>, draws: nat -> nat, j: nat)
    requires Declared(fields, states) && UniqueKeys(fields) && j < |fields|
    requires GenerateOne(fields, states, draws).outcome.Ok?
    ensures var rec := GenerateOne(fields, states, draws).outcome.value;
      var before := Before(fields, j, states, draws);
      && |rec| == |fields|
      && before.outcome == Ok(rec[..j])
      && fields[j].1 in before.states
      && Produce(before.states[fields[j].1], rec[..j], draws(j)).out.Ok?
      && rec[j] == (fields[j].0, Produce(before.states[fields[j].1], rec[..j], draws(j)).out.value)
  {
    RunSplit(fields, j, 0, [], states, draws);
    var before := Before(fields, j, states, draws);
    assert before.outcome.Ok?;
    var p, sj := before.outcome.value, before.states;
    assert Keys(p) == Keys(fields)[..j] by {
      RunShape(fields[..j], 0, [], states, draws);
      assert Keys(fields[..j]) == Keys(fields)[..j];
    }
    FieldAfterPrefix(fields, j, p, sj, draws);
  }

  /** The run from field `j` on, completed, starts with `partial` and then holds what field `j` produced from it. */
  lemma FieldAfterPrefix<K>(fields: seq<(string, K)>, j: nat, partial: Record, states: map<K, FieldState>, draws: nat -> nat)
    requires Declared(fields, states) && UniqueKeys(fields) && j < |fields|
    requires Keys(partial) == Keys(fields)[..j]
    requires RunFrom(fields, j, partial, states, draws).outcome.Ok?
    ensures var rec := RunFrom(fields, j, partial, states, draws).outcome.value;
      var s := Produce(states[fields[j].1], partial, draws(j));
      && |rec| == |fields| && rec[..j] == partial
      && s.out.Ok? && rec[j] == (fields[j].0, s.out.value)
  {
    RunShape(fields, j, partial, states, draws);
    var d := fields[j].1;
    var s := Produce(states[d], partial, draws(j));
    var next := Put(partial, fields[j].0, s.out.value);
    PutNextField(fields, j, partial, s.out.value);
    RunShape(fields, j + 1, next, states[d := s.state], draws);
    var rec := RunFrom(fields, j, partial, states, draws).outcome.value;
    assert rec[..j + 1] == next == partial + [(fields[j].0, s.out.value)];
    assert rec[j] == rec[..j + 1][j];
  }

  /** A Derivative field's value in every completed record is its function of the earlier fields' entries. */
  lemma DerivativeRecomputed<K>(fields: seq<(string, K)>, states: map<K, FieldState>, draws: nat -> nat,
                                    j: nat, f: Record -> Value)
    requires Declared(fields, states) && UniqueKeys(fields) && j < |fields|
    requires states[fields[j].1].isDerivative && states[fields[j].1].conditionalGenerator == Derive(f)
    ensures var run := GenerateOne(fields, states, draws);
      run.outcome.Ok? ==>
        |run.outcome.value| == |fields| && run.outcome.value[j] == (fields[j].0, f(run.outcome.value[..j]))
  {
    if GenerateOne(fields, states, draws).outcome.Ok? {
      FieldSeesEarlierFields(fields, states, draws, j);
      RunSplit(fields, j, 0, [], states, draws);
      RunKeepsConfig(fields[..j], 0, [], states, draws);
    }
  }

  /**
   * A conditional field whose predicates all fail on the earlier fields' entries makes the
   * whole record fail with "Not all possible conditions have been provided".
   */
  lemma UnmatchedConditionAborts<K>(fields: seq<(string, K)>, states: map<K, FieldState>, draws: nat -> nat, j: nat)
    requires Declared(fields, states) && j < |fields|
    requires states[fields[j].1].isConditional && states[fields[j].1].conditionalGenerator == Resolve
    requires var before := Before(fields, j, states, draws);
      before.outcome.Ok? && FirstMatch(states[fields[j].1].conditions, before.outcome.value).None?
    ensures GenerateOne(fields, states, draws).outcome == Err(ConditionsExhausted)
  {
    RunSplit(fields, j, 0, [], states, draws);
    RunKeepsConfig(fields[..j], 0, [], states, draws);
  }

  /** In a completed record every conditional field found a predicate that holds of the earlier entries. */
  lemma CompletedRecordMatchedEveryCondition<K>(fields: seq<(string, K)>, states: map<K, FieldState>,
                                                    draws: nat -> nat, j: nat)
    requires Declared(fields, states) && UniqueKeys(fields) && j < |fields|
    requires states[fields[j].1].isConditional && states[fields[j].1].conditionalGenerator == Resolve
    requires GenerateOne(fields, states, draws).outcome.Ok?
    ensures |GenerateOne(fields, states, draws).outcome.value| == |fields|
    ensures var rec := GenerateOne(fields, states, draws).outcome.value;
      exists i :: 0 <= i < |states[fields[j].1].conditions| && states[fields[j].1].conditions[i].holds(rec[..j])
  {
    var rec := GenerateOne(fields, states, draws).outcome.value;
    FieldSeesEarlierFields(fields, states, draws, j);
    RunSplit(fields, j, 0, [], states, draws);
    RunKeepsConfig(fields[..j], 0, [], states, draws);
    var conds := states[fields[j].1].conditions;
    var m := FirstMatch(conds, rec[..j]);
    assert m.Some?;
    assert conds[m.value].holds(rec[..j]);
  }

  /**
   * A field object declared once is asked for exactly one value per completed record,
   * given the entries of the fields before it, and that call alone changes its state.
   */
  lemma FieldInRecord<K>(fields: seq<(string, K)>, states: map<K, FieldState>, draws: nat -> nat, j: nat)
    requires Declared(fields, states) && UniqueKeys(fields) && j < |fields|
    requires forall i :: 0 <= i < |fields| && i != j ==> fields[i].1 != fields[j].1
    ensures var run := GenerateOne(fields, states, draws);
      run.outcome.Ok? ==>
        && |run.outcome.value| == |fields|
        && fields[j].1 in run.states
        && var s := Produce(states[fields[j].1], run.outcome.value[..j], draws(j));
           s.out == Ok(run.outcome.value[j].1) && run.states[fields[j].1] == s.state
  {
    var d := fields[j].1;
    var run := GenerateOne(fields, states, draws);
    if run.outcome.Ok? {
      FieldSeesEarlierFields(fields, states, draws, j);
      RunSplit(fields, j, 0, [], states, draws);
      var before := Before(fields, j, states, draws);
      RunUntouched(fields[..j], 0, [], states, draws, d);
      assert before.states[d] == states[d];
      var s := Produce(states[d], run.outcome.value[..j], draws(j));
      var next := Put(before.outcome.value, fields[j].0, s.out.value);
      assert run == RunFrom(fields, j + 1, next, before.states[d := s.state], draws);
      RunUntouched(fields, j + 1, next, before.states[d := s.state], draws, d);
    }
  }

  // ---------------------------------------------------------------------------------
  // Many records

  lemma {:induction false} RepeatStep<K>(fields: seq<(string, K)>, k: nat, count: nat, acc: seq<Record>,
                                       states: map<K, FieldState>, draws: nat -> nat -> nat)
    requires k <= count && Declared(fields, states)
    ensures var b := RepeatFrom(fields, k, count, acc, states, draws);
      && Declared(fields, b.states)
      && (b.outcome.Err? ==> RepeatFrom(fields, k, count + 1, acc, states, draws) == b)
      && (b.outcome.Ok? ==>
            var one := GenerateOne(fields, b.states, draws(count));
            RepeatFrom(fields, k, count + 1, acc, states, draws) ==
              match one.outcome
              case Ok(r) => Batch(Ok(b.outcome.value + [r]), one.states)
              case Err(e) => Batch(Err(e), one.states))
    decreases count - k
  {
    if k < count {
      var one := GenerateOne(fields, states, draws(k));
      if one.outcome.Ok? {
        RepeatStep(fields, k + 1, count, acc + [one.outcome.value], one.states, draws);
      }
    } else {
      var one := GenerateOne(fields, states, draws(count));
      if one.outcome.Ok? {
        assert RepeatFrom(fields, k + 1, count + 1, acc + [one.outcome.value], one.states, draws)
            == Batch(Ok(acc + [one.outcome.value]), one.states);
      }
    }
  }

  /**
   * Generate(count + 1) is Generate(count) followed by one more GenerateOne from the state
   * the batch left: it fails if that batch failed or that record fails, and otherwise
   * appends that record. Generate(0) is the empty batch and changes nothing.
   */
  lemma GenerateStep<K>(fields: seq<(string, K)>, count: nat, states: map<K, FieldState>, draws: nat -> nat -> nat)
    requires Declared(fields, states)
    ensures Generate(fields, 0, states, draws) == Batch(Ok([]), states)
    ensures var b := Generate(fields, count, states, draws);
      && Declared(fields, b.states)
      && (b.outcome.Err? ==> Generate(fields, count + 1, states, draws) == b)
      && (b.outcome.Ok? ==>
            var one := GenerateOne(fields, b.states, draws(count));
            Generate(fields, count + 1, states, draws) ==
              match one.outcome
              case Ok(r) => Batch(Ok(b.outcome.value + [r]), one.states)
              case Err(e) => Batch(Err(e), one.states))
  {
    RepeatStep(fields, 0, count, [], states, draws);
  }

  /** Generate(count) fails for a negative count and otherwise returns exactly `count` records, each complete. */
  lemma {:induction false} GenerateLength<K>(fields: seq<(string, K)>, count: int, states: map<K, FieldState>,
                                           draws: nat -> nat -> nat)
    requires Declared(fields, states)
    ensures count < 0 ==> Generate(fields, count, states, draws) == Batch(Err(AssertionError), states)
    ensures var b := Generate(fields, count, states, draws);
      b.outcome.Ok? ==> |b.outcome.value| == count && (UniqueKeys(fields) ==> forall k :: 0 <= k < count ==>
        Keys(b.outcome.value[k]) == Keys(fields))
    decreases if count < 0 then 0 else count
  {
    if count > 0 {
      GenerateLength(fields, count - 1, states, draws);
      GenerateStep(fields, count - 1, states, draws);
      var b := Generate(fields, count - 1, states, draws);
      if b.outcome.Ok? && UniqueKeys(fields) {
        RunShape(fields, 0, [], b.states, draws(count - 1));
      }
    }
  }

  /** The draws one field position receives, record after record. */
  function Column(draws: nat -> nat -> nat, j: nat): nat -> nat
  {
    k => draws(k)(j)
  }

  /** The partial records field `j` saw, record after record. */
  function Prefixes(recs: seq<Record>, j: nat): (ps: seq<Record>)
    requires forall k :: 0 <= k < |recs| ==> j <= |recs[k]|
    ensures |ps| == |recs|
  {
    seq(|recs|, k requires 0 <= k < |recs| => recs[k][..j])
  }

  /**
   * Across a completed batch, a field object declared once behaves as that field alone
   * fed the partial records its position saw: its values are its own history over them,
   * and its state carries over from one record to the next without reset.
   */
  lemma {:induction false} FieldAcrossGenerate<K>(fields: seq<(string, K)>, count: nat, states: map<K, FieldState>,
                                                draws: nat -> nat -> nat, j: nat)
    requires Declared(fields, states) && UniqueKeys(fields) && j < |fields|
    requires forall i :: 0 <= i < |fields| && i != j ==> fields[i].1 != fields[j].1
    ensures var b := Generate(fields, count, states, draws);
      b.outcome.Ok? ==>
        && |b.outcome.value| == count
        && (forall k :: 0 <= k < count ==> |b.outcome.value[k]| == |fields|)
        && fields[j].1 in b.states
        && var h := ProduceAll(states[fields[j].1], Prefixes(b.outcome.value, j), Column(draws, j));
           && b.states[fields[j].1] == h.state
           && |h.outs| == count
           && forall k :: 0 <= k < count ==> h.outs[k] == Ok(b.outcome.value[k][j].1)
  {
    if count == 0 {
      GenerateStep(fields, 0, states, draws);
    } else {
      FieldAcrossGenerate(fields, count - 1, states, draws, j);
      GenerateStep(fields, count - 1, states, draws);
      var b := Generate(fields, count - 1, states, draws);
      if b.outcome.Ok? {
        var one := GenerateOne(fields, b.states, draws(count - 1));
        if one.outcome.Ok? {
          assert Generate(fields, count, states, draws) == Batch(Ok(b.outcome.value + [one.outcome.value]), one.states);
          FieldInRecord(fields, b.states, draws(count - 1), j);
          FieldAcrossStep(fields, states, draws, j, b.outcome.value, b.states, one.outcome.value, one.states);
        }
      }
    }
  }

  /** The inductive step of FieldAcrossGenerate: one more completed record extends the field's history by one. */
  lemma FieldAcrossStep<K>(fields: seq<(string, K)>, states: map<K, FieldState>, draws: nat -> nat -> nat, j: nat,
                           recs: seq<Record>, bst: map<K, FieldState>, r: Record, ost: map<K, FieldState>)
    requires j < |fields| && fields[j].1 in states && fields[j].1 in bst && fields[j].1 in ost
    requires forall k :: 0 <= k < |recs| ==> |recs[k]| == |fields|
    requires var h := ProduceAll(states[fields[j].1], Prefixes(recs, j), Column(draws, j));
      && bst[fields[j].1] == h.state && |h.outs| == |recs|
      && forall k :: 0 <= k < |recs| ==> h.outs[k] == Ok(recs[k][j].1)
    requires |r| == |fields|
    requires var s := Produce(bst[fields[j].1], r[..j], draws(|recs|)(j));
      s.out == Ok(r[j].1) && ost[fields[j].1] == s.state
    ensures var recs' := recs + [r];
      && (forall k :: 0 <= k < |recs'| ==> |recs'[k]| == |fields|)
      && var h := ProduceAll(states[fields[j].1], Prefixes(recs', j), Column(draws, j));
         && ost[fields[j].1] == h.state && |h.outs| == |recs'|
         && forall k :: 0 <= k < |recs'| ==> h.outs[k] == Ok(recs'[k][j].1)
  {
    var recs' := recs + [r];
    assert forall k :: 0 <= k < |recs'| ==> |recs'[k]| == |fields|;
    var ps := Prefixes(recs', j);
    assert ps[..|recs|] == Prefixes(recs, j);
    assert ps[|recs|] == r[..j];
    assert Column(draws, j)(|recs|) == draws(|recs|)(j);
  }

  /**
   * A plain field declared once yields, in the k-th record of a completed batch, the
   * (k+1)-th value of its generator.
   */
  lemma PlainFieldAcrossGenerate<K>(fields: seq<(string, K)>, count: nat, states: map<K, FieldState>,
                                    draws: nat -> nat -> nat, j: nat)
    requires Declared(fields, states) && UniqueKeys(fields) && j < |fields|
    requires forall i :: 0 <= i < |fields| && i != j ==> fields[i].1 != fields[j].1
    requires !UsesConditionalGenerator(states[fields[j].1])
    ensures var b := Generate(fields, count, states, draws);
      var g := states[fields[j].1].generator;
      b.outcome.Ok? ==>
        && |b.outcome.value| == count
        && forall k :: 0 <= k < count ==>
             && |b.outcome.value[k]| == |fields|
             && NthOutput(g, Column(draws, j), k) == Ok(b.outcome.value[k][j].1)
    ensures var b := Generate(fields, count, states, draws);
      var g := states[fields[j].1].generator;
      b.outcome.Ok? ==>
        && fields[j].1 in b.states
        && b.states[fields[j].1] == states[fields[j].1].(generator := Advance(g, Column(draws, j), count))
  {
    var b := Generate(fields, count, states, draws);
    FieldAcrossGenerate(fields, count, states, draws, j);
    if b.outcome.Ok? {
      PlainHistory(states[fields[j].1], Prefixes(b.outcome.value, j), Column(draws, j));
    }
  }

  /** A Derivative field declared once holds, in every record of a completed batch, its function of the earlier entries. */
  lemma DerivativeAcrossGenerate<K>(fields: seq<(string, K)>, count: nat, states: map<K, FieldState>,
                                    draws: nat -> nat -> nat, j: nat, f: Record -> Value)
    requires Declared(fields, states) && UniqueKeys(fields) && j < |fields|
    requires forall i :: 0 <= i < |fields| && i != j ==> fields[i].1 != fields[j].1
    requires states[fields[j].1].isDerivative && states[fields[j].1].conditionalGenerator == Derive(f)
    ensures var b := Generate(fields, count, states, draws);
      b.outcome.Ok? ==>
        && |b.outcome.value| == count
        && forall k :: 0 <= k < count ==>
             && |b.outcome.value[k]| == |fields|
             && b.outcome.value[k][j].1 == f(b.outcome.value[k][..j])
  {
    var b := Generate(fields, count, states, draws);
    FieldAcrossGenerate(fields, count, states, draws, j);
    if b.outcome.Ok? {
      DerivativeHistory(states[fields[j].1], f, Prefixes(b.outcome.value, j), Column(draws, j));
    }
  }

  // ---------------------------------------------------------------------------------
  // Failures come only from configuration

  ghost predicate AllWellConfigured<K>(states: map<K, FieldState>)
  {
    forall x :: x in states ==> WellConfigured(states[x])
  }

  lemma {:induction false} RunNeverFails<K>(fields: seq<(string, K)>, j: nat, partial: Record,
                                          states: map<K, FieldState>, draws: nat -> nat)
    requires j <= |fields| && Declared(fields, states) && AllWellConfigured(states)
    ensures var run := RunFrom(fields, j, partial, states, draws);
      run.outcome.Ok? && AllWellConfigured(run.states)
    decreases |fields| - j
  {
    if j < |fields| {
      var d := fields[j].1;
      WellConfiguredNeverFails(states[d], partial, draws(j));
      var s := Produce(states[d], partial, draws(j));
      RunNeverFails(fields, j + 1, Put(partial, fields[j].0, s.out.value), states[d := s.state], draws);
    }
  }

  /**
   * When every declared field is well configured, Generate(count) fails only for a negative
   * count, and otherwise returns `count` records, leaving every field well configured.
   */
  lemma {:induction false} GenerateNeverFails<K>(fields: seq<(string, K)>, count: int, states: map<K, FieldState>,
                                               draws: nat -> nat -> nat)
    requires Declared(fields, states) && AllWellConfigured(states)
    ensures var b := Generate(fields, count, states, draws);
      && (b.outcome.Ok? <==> count >= 0)
      && (b.outcome.Ok? ==> |b.outcome.value| == count && AllWellConfigured(b.states))
    decreases if count < 0 then 0 else count
  {
    if count > 0 {
      GenerateNeverFails(fields, count - 1, states, draws);
      GenerateStep(fields, count - 1, states, draws);
      var b := Generate(fields, count - 1, states, draws);
      RunNeverFails(fields, 0, [], b.states, draws(count - 1));
      var one := GenerateOne(fields, b.states, draws(count - 1));
      assert Generate(fields, count, states, draws) == Batch(Ok(b.outcome.value + [one.outcome.value]), one.states);
    } else if count == 0 {
      GenerateStep(fields, 0, states, draws);
    }
  }
}
