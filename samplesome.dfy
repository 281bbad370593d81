/**
 * The objects of samplesome.py: DataType (with the configuration methods of its String
 * and Integer subclasses) and Model. Each method is proved against the functions of the
 * Fields and Assembly modules, which say what one field and one record do.
 */
module Samplesome {
  import opened Outcomes
  import opened Records
  import opened Sources
  import opened Fields
  import Assembly

  /** A field specification. Its conditions and branch cache belong to the instance. */
  class DataType {
    var generator: Source
    var conditionalGenerator: Dispatch
    var isConditional: bool
    var isDerivative: bool
    var conditions: seq<Branch>
    var cachedConditionalGenerators: map<nat, Source>
    /** The branch indices whose builder has run, in the order they ran. */
    ghost var builderRuns: seq<nat>

    ghost function State(): FieldState
      reads this
    {
      FieldState(generator, conditionalGenerator, isConditional, isDerivative, conditions, cachedConditionalGenerators)
    }

    /**
     * Every cached branch was built exactly once, by its own builder; Derivative sets its
     * flag and its dispatch together.
     */
    ghost predicate Valid()
      reads this
    {
      && NoDuplicates(builderRuns)
      && (forall k :: k in builderRuns <==> k in cachedConditionalGenerators)
      && (forall k :: k in cachedConditionalGenerators ==> k < |conditions|)
      && (isDerivative <==> conditionalGenerator.Derive?)
    }

    /** DataType.__init__: no generator, the resolver as conditional generator, no conditions. */
    constructor ()
      ensures Valid() && State() == Fresh() && builderRuns == []
    {
      generator := Unconfigured;
      conditionalGenerator := Resolve;
      isConditional := false;
      isDerivative := false;
      conditions := [];
      cachedConditionalGenerators := map[];
      builderRuns := [];
    }

    /** A fresh, unconfigured instance of the same kind, handed to a branch builder. */
    method CreateInstance() returns (child: DataType)
      ensures fresh(child) && child.Valid() && child.State() == Fresh()
    {
      child := new DataType();
    }

    /** Condition(predicate, generator): append one branch and make the field conditional. */
    method Condition(holds: Record -> bool, build: Source -> Source) returns (self: DataType)
      requires Valid()
      modifies this
      ensures self == this && Valid() && builderRuns == old(builderRuns)
      ensures State() == old(State()).(isConditional := true, conditions := old(conditions) + [Branch(holds, build)])
    {
      isConditional := true;
      conditions := conditions + [Branch(holds, build)];
      self := this;
    }

    /** Derivative(f): replace the conditional generator by `f`, which then decides every value. */
    method Derivative(f: Record -> Value) returns (self: DataType)
      requires Valid()
      modifies this
      ensures self == this && Valid() && builderRuns == old(builderRuns)
      ensures State() == old(State()).(isDerivative := true, conditionalGenerator := Derive(f))
    {
      isDerivative := true;
      conditionalGenerator := Derive(f);
      self := this;
    }

    /** String.Autoincrement(prefix, start). */
    method Autoincrement(prefix: string := "", start: int := 0) returns (self: DataType)
      requires Valid()
      modifies this
      ensures self == this && Valid() && builderRuns == old(builderRuns)
      ensures State() == old(State()).(generator := Autoinc(prefix, start))
    {
      generator := Autoinc(prefix, start);
      self := this;
    }

    /** String.Const(value). */
    method Const(value: Value) returns (self: DataType)
      requires Valid()
      modifies this
      ensures self == this && Valid() && builderRuns == old(builderRuns)
      ensures State() == old(State()).(generator := Source.Const(value))
    {
      generator := Source.Const(value);
      self := this;
    }

    /** String.Choice(values) and Integer.Choice(values). */
    method Choice(values: seq<Value>) returns (self: DataType)
      requires Valid()
      modifies this
      ensures self == this && Valid() && builderRuns == old(builderRuns)
      ensures State() == old(State()).(generator := Source.Choice(values))
    {
      generator := Source.Choice(values);
      self := this;
    }

    /** Integer.Uniform(min, max). */
    method Uniform(min: int, max: int) returns (self: DataType)
      requires Valid()
      modifies this
      ensures self == this && Valid() && builderRuns == old(builderRuns)
      ensures State() == old(State()).(generator := Source.Uniform(min, max))
    {
      generator := Source.Uniform(min, max);
      self := this;
    }

    /**
     * This field's value for the record being built (the body of GenerateOne's loop):
     * next(conditionalGenerator(partial)) for a conditional or derivative field, else
     * next(generator). Resolution walks the conditions in order, builds the selected
     * branch on a fresh instance only when its index is not cached, and pulls from it.
     */
    method NextValue(partial: Record, draw: nat) returns (r: Result<Value>)
      requires Valid()
      modifies this
      ensures Valid()
      ensures Step(r, State()) == Produce(old(State()), partial, draw)
      ensures builderRuns == old(builderRuns) + BuilderRuns(old(State()), partial)
    {
      if isConditional || isDerivative {
        match conditionalGenerator {
          case Derive(f) =>
            r := Ok(f(partial));
          case Resolve =>
            var conditionIndex := 0;
            while conditionIndex < |conditions|
              invariant 0 <= conditionIndex <= |conditions|
              invariant forall k :: 0 <= k < conditionIndex ==> !conditions[k].holds(partial)
              invariant State() == old(State()) && builderRuns == old(builderRuns)
            {
              if conditions[conditionIndex].holds(partial) {
                r := PullBranch(conditionIndex, partial, draw);
                return;
              }
              conditionIndex := conditionIndex + 1;
            }
            r := Err(ConditionsExhausted);
        }
      } else {
        var pulled := Pull(generator, draw);
        generator := pulled.next;
        r := pulled.out;
      }
    }
    /** The selected branch `i` pulls its value: from the cached generator, or from one its builder makes now. */
    method PullBranch(i: nat, partial: Record, draw: nat) returns (r: Result<Value>)
      requires Valid() && UsesConditionalGenerator(State()) && conditionalGenerator == Resolve
      requires FirstMatch(conditions, partial) == Some(i)
      modifies this
      ensures Valid()
      ensures Step(r, State()) == Produce(old(State()), partial, draw)
      ensures builderRuns == old(builderRuns) + BuilderRuns(old(State()), partial)
    {
      var childGenerator: Source;
      if i in cachedConditionalGenerators {
        childGenerator := cachedConditionalGenerators[i];
      } else {
        var child := CreateInstance();
        childGenerator := conditions[i].build(child.generator);
        cachedConditionalGenerators := cachedConditionalGenerators[i := childGenerator];
        builderRuns := builderRuns + [i];
      }
      var pulled := Pull(childGenerator, draw);
      cachedConditionalGenerators := cachedConditionalGenerators[i := pulled.next];
      r := pulled.out;
    }
  }

  /** A record generator: named fields in declaration order. The field list belongs to the instance. */
  class Model {
    const name: string
    var fields: seq<(string, DataType)>
    /** The field objects declared so far. */
    ghost var Repr: set<DataType>

    ghost predicate Valid()
      reads this, Repr
    {
      && Repr == (set i | 0 <= i < |fields| :: fields[i].1)
      && forall d :: d in Repr ==> d.Valid()
    }

    /** The state of every declared field object. */
    ghost function States(): map<DataType, FieldState>
      reads this, Repr
    {
      map d | d in Repr :: d.State()
    }

    constructor (name: string := "")
      ensures Valid() && this.name == name && fields == []
    {
      this.name := name;
      fields := [];
      Repr := {};
    }

    /** Field(name, value): refuse a missing value; otherwise append (name, value) and return this model. */
    method Field(name: string, value: DataType?) returns (r: Result<Model>)
      requires Valid()
      requires value != null ==> value.Valid()
      modifies this
      ensures Valid()
      ensures value == null ==> r == Err(AssertionError) && fields == old(fields)
      ensures value != null ==> r == Ok(this) && fields == old(fields) + [(name, value)]
      ensures States().Keys >= old(States()).Keys
    {
      if value == null {
        r := Err(AssertionError);
        return;
      }
      ghost var before := fields;
      fields := fields + [(name, value)];
      Repr := Repr + {value};
      forall x | x in Repr ensures exists i :: 0 <= i < |fields| && fields[i].1 == x {
        if x == value {
          assert fields[|before|].1 == x;
        } else {
          var i :| 0 <= i < |before| && before[i].1 == x;
          assert fields[i].1 == x;
        }
      }
      assert forall i :: 0 <= i < |before| ==> fields[i] == before[i];
      r := Ok(this);
    }

    /** Once one declared field object has changed and nothing else has, the model is valid and only that object's state moved. */
    twostate lemma OneFieldChanged(d: DataType)
      requires old(Valid()) && d in old(Repr) && unchanged(this)
      requires forall e :: e in old(Repr) && e != d ==> unchanged(e)
      requires d.Valid()
      ensures Valid() && States() == old(States())[d := d.State()]
      ensures Assembly.Declared(fields, States())
    {
      assert forall e :: e in Repr && e != d ==> e.State() == old(e.State());
    }

    /** The value of field `j` for the record being built; only that field object changes. */
    method NextField(j: nat, partial: Record, draw: nat) returns (out: Result<Value>)
      requires Valid() && j < |fields|
      modifies fields[j].1
      ensures Valid() && Assembly.Declared(fields, States())
      ensures var d := fields[j].1;
        d in old(States()) && d in States() && Step(out, States()[d]) == Produce(old(States())[d], partial, draw) &&
        States() == old(States())[d := States()[d]]
    {
      var d := fields[j].1;
      label BeforeField:
      out := d.NextValue(partial, draw);
      OneFieldChanged@BeforeField(d);
    }

    /** GenerateOne: one record, its fields produced in declaration order. */
    method GenerateOne(draws: nat -> nat) returns (r: Result<Record>)
      requires Valid()
      modifies Repr
      ensures Valid()
      ensures Assembly.Declared(fields, old(States()))
      ensures var run := Assembly.GenerateOne(fields, old(States()), draws);
        r == run.outcome && States() == run.states
    {
      ghost var initial := States();
      var ret: Record := [];
      var j := 0;
      while j < |fields|
        invariant 0 <= j <= |fields|
        invariant Valid()
        invariant Assembly.Declared(fields, States())
        invariant Assembly.RunFrom(fields, j, ret, States(), draws) == Assembly.GenerateOne(fields, initial, draws)
      {
        ghost var before := States();
        var out := NextField(j, ret, draws(j));
        Assembly.RunFromStep(fields, j, ret, before, draws, out, States()[fields[j].1]);
        if out.Err? {
          r := Err(out.error);
          return;
        }
        ret := Put(ret, fields[j].0, out.value);
        j := j + 1;
      }
      r := Ok(ret);
    }

    /** Generate(count): refuse a negative count; otherwise `count` records, one GenerateOne after another. */
    method Generate(count: int, draws: nat -> nat -> nat) returns (r: Result<seq<Record>>)
      requires Valid()
      modifies Repr
      ensures Valid()
      ensures Assembly.Declared(fields, old(States()))
      ensures var b := Assembly.Generate(fields, count, old(States()), draws);
        r == b.outcome && States() == b.states
    {
      if count < 0 {
        r := Err(AssertionError);
        return;
      }
      ghost var initial := States();
      var ret: seq<Record> := [];
      var i := 0;
      while i < count
        invariant 0 <= i <= count
        invariant Valid()
        invariant Assembly.Declared(fields, States())
        invariant Assembly.RepeatFrom(fields, i, count, ret, States(), draws) == Assembly.Generate(fields, count, initial, draws)
      {
        var one := GenerateOne(draws(i));
        if one.Err? {
          r := Err(one.error);
          return;
        }
        ret := ret + [one.value];
        i := i + 1;
      }
      r := Ok(ret);
    }
  }
}
