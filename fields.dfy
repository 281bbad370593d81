/**
 * A field's specification (a DataType instance) as a value, and what one call of
 * GenerateOne asks of it: the dispatch between the plain generator and the
 * conditional generator, the Derivative computation, and conditional resolution
 * with its branch cache.
 */
module Fields {
  import opened Outcomes
  import opened Records
  import opened Sources

  /** What `conditionalGenerator` holds: the resolver __init__ installs, or the function Derivative installs. */
  datatype Dispatch = Resolve | Derive(f: Record -> Value)

  /**
   * One `(predicate, generator)` pair appended by Condition. The builder is handed the
   * generator of a fresh instance and returns the generator its configuration calls leave
   * there; resolution uses nothing else of the built instance.
   */
  datatype Branch = Branch(holds: Record -> bool, build: Source -> Source)

  /** The attributes of one DataType instance. */
  datatype FieldState = FieldState(
    generator: Source,
    conditionalGenerator: Dispatch,
    isConditional: bool,
    isDerivative: bool,
    conditions: seq<Branch>,
    cache: map<nat, Source>)   // cachedConditionalGenerators: branch index -> that branch's generator

  /** The attributes of a new instance (DataType.__init__, and so CreateInstance). */
  function Fresh(): FieldState
  {
    FieldState(Unconfigured, Resolve, false, false, [], map[])
  }

  /** The two fields a record updates; everything else is configuration. */
  ghost predicate SameConfig(a: FieldState, b: FieldState)
  {
    a.conditionalGenerator == b.conditionalGenerator && a.isConditional == b.isConditional &&
    a.isDerivative == b.isDerivative && a.conditions == b.conditions
  }

  /** The first index at or after `from` whose predicate holds of `rec`. */
  function FirstMatchFrom(conds: seq<Branch>, rec: Record, from: nat): (r: Option<nat>)
    requires from <= |conds|
    ensures r.Some? ==> from <= r.value < |conds| && conds[r.value].holds(rec)
    ensures r.Some? ==> forall k :: from <= k < r.value ==> !conds[k].holds(rec)
    ensures r.None? ==> forall k :: from <= k < |conds| ==> !conds[k].holds(rec)
    decreases |conds| - from
  {
    if from == |conds| then None
    else if conds[from].holds(rec) then Some(from)
    else FirstMatchFrom(conds, rec, from + 1)
  }

  /** The lowest index whose predicate holds, or None when none does. */
  function FirstMatch(conds: seq<Branch>, rec: Record): Option<nat>
  {
    FirstMatchFrom(conds, rec, 0)
  }

  /** Whether GenerateOne calls conditionalGenerator (and not next(generator)) for this field. */
  predicate UsesConditionalGenerator(fs: FieldState)
  {
    fs.isConditional || fs.isDerivative
  }

  /** The branch index resolution selects for `partial`, when the field is resolved at all. */
  function Selected(fs: FieldState, partial: Record): Option<nat>
  {
    if UsesConditionalGenerator(fs) && fs.conditionalGenerator.Resolve? then FirstMatch(fs.conditions, partial)
    else None
  }

  /** The indices whose builder runs while producing `partial`'s value: the selected one when it is not cached. */
  function BuilderRuns(fs: FieldState, partial: Record): seq<nat>
  {
    match Selected(fs, partial)
    case Some(i) => if i in fs.cache then [] else [i]
    case None => []
  }

  /** The generator branch `i` pulls from: the cached one, else the builder's result on a fresh instance. */
  function BranchSource(fs: FieldState, i: nat): Source
    requires i < |fs.conditions|
  {
    if i in fs.cache then fs.cache[i] else fs.conditions[i].build(Fresh().generator)
  }

  datatype Step = Step(out: Result<Value>, state: FieldState)

  /** One field's value for one record (samplesome.py:229-232), and the instance afterwards. */
  function Produce(fs: FieldState, partial: Record, draw: nat): (s: Step)
    ensures SameConfig(fs, s.state)
  {
    if UsesConditionalGenerator(fs) then
      match fs.conditionalGenerator
      case Derive(f) => Step(Ok(f(partial)), fs)
      case Resolve =>
        match FirstMatch(fs.conditions, partial)
        case None => Step(Err(ConditionsExhausted), fs)
        case Some(i) =>
          var p := Pull(BranchSource(fs, i), draw);
          Step(p.out, fs.(cache := fs.cache[i := p.next]))
    else
      var p := Pull(fs.generator, draw);
      Step(p.out, fs.(generator := p.next))
  }

  /** A plain field pulls its own generator once and ignores the partial record. */
  lemma PlainField(fs: FieldState, partial: Record, partial': Record, draw: nat)
    requires !UsesConditionalGenerator(fs)
    ensures Produce(fs, partial, draw).out == Pull(fs.generator, draw).out == Produce(fs, partial', draw).out
    ensures Produce(fs, partial, draw).state == fs.(generator := Pull(fs.generator, draw).next)
  {
  }

  /**
   * Once Derivative has been called, the value is the function of the partial record,
   * whatever conditions were also declared, and nothing is cached or advanced.
   */
  lemma DerivativeField(fs: FieldState, f: Record -> Value, partial: Record, draw: nat)
    requires fs.isDerivative && fs.conditionalGenerator == Derive(f)
    ensures Produce(fs, partial, draw) == Step(Ok(f(partial)), fs)
  {
  }

  /**
   * Conditional resolution: with no predicate holding it fails and changes nothing;
   * otherwise the lowest index `i` whose predicate holds is the one whose generator
   * yields the value, built only when not cached, and only cache entry `i` changes.
   */
  lemma ConditionalField(fs: FieldState, partial: Record, draw: nat)
    requires fs.isConditional && fs.conditionalGenerator == Resolve
    ensures var s := Produce(fs, partial, draw);
      match FirstMatch(fs.conditions, partial)
      case None =>
        && (forall k :: 0 <= k < |fs.conditions| ==> !fs.conditions[k].holds(partial))
        && s == Step(Err(ConditionsExhausted), fs)
      case Some(i) =>
        && i < |fs.conditions| && fs.conditions[i].holds(partial)
        && (forall k :: 0 <= k < i ==> !fs.conditions[k].holds(partial))
        && s.out == Pull(BranchSource(fs, i), draw).out
        && s.state.cache.Keys == fs.cache.Keys + {i}
        && s.state.cache[i] == Pull(BranchSource(fs, i), draw).next
        && (forall k :: k in fs.cache && k != i ==> s.state.cache[k] == fs.cache[k])
        && s.state.generator == fs.generator
  {
  }

  /** The cache only grows, by exactly the branches whose builder ran, and keeps every unselected entry. */
  lemma ProduceCache(fs: FieldState, partial: Record, draw: nat)
    ensures var s := Produce(fs, partial, draw);
      && s.state.cache.Keys == fs.cache.Keys + set i | i in BuilderRuns(fs, partial)
      && (forall k :: k in fs.cache && Selected(fs, partial) != Some(k) ==> s.state.cache[k] == fs.cache[k])
  {
    var s := Produce(fs, partial, draw);
    match Selected(fs, partial)
    case Some(i) =>
      assert s.state.cache.Keys == fs.cache.Keys + {i};
    case None =>
  }

  /** A predicate that holds of every record, like `lambda fields: True`. */
  ghost predicate CatchAll(b: Branch)
  {
    forall rec: Record :: b.holds(rec)
  }

  /**
   * A field whose value can always be produced: a configured plain generator, a
   * Derivative, or conditions ending in a catch-all whose builders all configure their
   * instance, with every cached branch still configured.
   */
  ghost predicate WellConfigured(fs: FieldState)
  {
    if UsesConditionalGenerator(fs) then
      match fs.conditionalGenerator
      case Derive(_) => true
      case Resolve =>
        && |fs.conditions| > 0
        && CatchAll(fs.conditions[|fs.conditions| - 1])
        && (forall i :: 0 <= i < |fs.conditions| ==> Configured(fs.conditions[i].build(Fresh().generator)))
        && (forall i :: i in fs.cache ==> Configured(fs.cache[i]))
    else Configured(fs.generator)
  }

  /** A well-configured field yields a value for every partial record and stays well configured. */
  lemma WellConfiguredNeverFails(fs: FieldState, partial: Record, draw: nat)
    requires WellConfigured(fs)
    ensures Produce(fs, partial, draw).out.Ok?
    ensures WellConfigured(Produce(fs, partial, draw).state)
  {
    if UsesConditionalGenerator(fs) && fs.conditionalGenerator.Resolve? {
      var m := FirstMatch(fs.conditions, partial);
      assert fs.conditions[|fs.conditions| - 1].holds(partial);
      assert m.Some?;
      PullConfigured(BranchSource(fs, m.value), draw);
    } else if !UsesConditionalGenerator(fs) {
      PullConfigured(fs.generator, draw);
    }
  }

  /** A field's outputs and builder invocations over several records, and its state afterwards. */
  datatype History = History(outs: seq<Result<Value>>, builds: seq<nat>, state: FieldState)

  /** Produce on each of `recs` in turn, the k-th drawing `draws(k)`. */
  function ProduceAll(fs: FieldState, recs: seq<Record>, draws: nat -> nat): History
    decreases |recs|
  {
    if recs == [] then History([], [], fs)
    else
      var h := ProduceAll(fs, recs[..|recs| - 1], draws);
      var last := recs[|recs| - 1];
      var s := Produce(h.state, last, draws(|recs| - 1));
      History(h.outs + [s.out], h.builds + BuilderRuns(h.state, last), s.state)
  }

  /**
   * Over any run of records, the builder of each branch index runs at most once, never
   * for an index already cached, and the cache ends up holding exactly the indices
   * cached before plus those built.
   */
  lemma {:induction false} BuildsAtMostOnce(fs: FieldState, recs: seq<Record>, draws: nat -> nat)
    ensures var h := ProduceAll(fs, recs, draws);
      && NoDuplicates(h.builds)
      && (forall k :: 0 <= k < |h.builds| ==> h.builds[k] !in fs.cache)
      && h.state.cache.Keys == fs.cache.Keys + set k | k in h.builds
    decreases |recs|
  {
    if recs != [] {
      var prefix := recs[..|recs| - 1];
      BuildsAtMostOnce(fs, prefix, draws);
      var h := ProduceAll(fs, prefix, draws);
      var last := recs[|recs| - 1];
      ProduceCache(h.state, last, draws(|recs| - 1));
      var runs := BuilderRuns(h.state, last);
      assert forall k :: k in runs ==> k !in h.state.cache;
    }
  }

  /** A configuration survives any run of records. */
  lemma {:induction false} ProduceAllKeepsConfig(fs: FieldState, recs: seq<Record>, draws: nat -> nat)
    ensures SameConfig(fs, ProduceAll(fs, recs, draws).state)
    ensures |ProduceAll(fs, recs, draws).outs| == |recs|
    decreases |recs|
  {
    if recs != [] {
      ProduceAllKeepsConfig(fs, recs[..|recs| - 1], draws);
    }
  }

  /** A branch that no record of a run selects keeps its cached generator untouched. */
  lemma {:induction false} UnselectedBranchUntouched(fs: FieldState, recs: seq<Record>, draws: nat -> nat, i: nat)
    requires i in fs.cache
    requires forall k :: 0 <= k < |recs| ==> Selected(fs, recs[k]) != Some(i)
    ensures var h := ProduceAll(fs, recs, draws);
      i in h.state.cache && h.state.cache[i] == fs.cache[i]
    decreases |recs|
  {
    if recs != [] {
      var prefix := recs[..|recs| - 1];
      UnselectedBranchUntouched(fs, prefix, draws, i);
      var h := ProduceAll(fs, prefix, draws);
      ProduceAllKeepsConfig(fs, prefix, draws);
      ProduceCache(h.state, recs[|recs| - 1], draws(|recs| - 1));
      assert Selected(h.state, recs[|recs| - 1]) == Selected(fs, recs[|recs| - 1]);
    }
  }

  /** Over a run of records a plain field yields its generator's values in order and ignores the records. */
  lemma {:induction false} PlainHistory(fs: FieldState, recs: seq<Record>, draws: nat -> nat)
    requires !UsesConditionalGenerator(fs)
    ensures var h := ProduceAll(fs, recs, draws);
      && h.state == fs.(generator := Advance(fs.generator, draws, |recs|))
      && |h.outs| == |recs|
      && forall k :: 0 <= k < |recs| ==> h.outs[k] == NthOutput(fs.generator, draws, k)
    decreases |recs|
  {
    if recs != [] {
      PlainHistory(fs, recs[..|recs| - 1], draws);
    }
  }

  /** Over a run of records a Derivative field yields its function of each record, and never changes. */
  lemma {:induction false} DerivativeHistory(fs: FieldState, f: Record -> Value, recs: seq<Record>, draws: nat -> nat)
    requires fs.isDerivative && fs.conditionalGenerator == Derive(f)
    ensures var h := ProduceAll(fs, recs, draws);
      && h.state == fs
      && |h.outs| == |recs|
      && forall k :: 0 <= k < |recs| ==> h.outs[k] == Ok(f(recs[k]))
    decreases |recs|
  {
    if recs != [] {
      DerivativeHistory(fs, f, recs[..|recs| - 1], draws);
    }
  }

  /**
   * Whatever a single call of Produce keeps invariant and guarantees of its output holds
   * over a whole run of records, record by record.
   */
  lemma {:induction false} ProduceAllInvariant(fs: FieldState, recs: seq<Record>, draws: nat -> nat,
                                               inv: FieldState -> bool, good: (Record, Result<Value>) -> bool)
    requires inv(fs)
    requires forall st, rec, draw :: inv(st) ==>
      good(rec, Produce(st, rec, draw).out) && inv(Produce(st, rec, draw).state)
    ensures var h := ProduceAll(fs, recs, draws);
      && inv(h.state)
      && |h.outs| == |recs|
      && forall k :: 0 <= k < |recs| ==> good(recs[k], h.outs[k])
    decreases |recs|
  {
    if recs != [] {
      var prefix := recs[..|recs| - 1];
      ProduceAllInvariant(fs, prefix, draws, inv, good);
      assert forall k :: 0 <= k < |prefix| ==> recs[k] == prefix[k];
    }
  }
}
