/**
 * Concrete models built with the engine, and what they are proved to generate for every
 * possible sequence of random draws. Field objects are identified by small numbers.
 */
module Scenarios {
  import opened Outcomes
  import opened Records
  import opened Sources
  import opened Fields
  import opened Assembly
  import Decimal

  // ---------------------------------------------------------------------------------
  // Columns: what one field declared once holds in every record of a completed batch
  // ---------------------------------------------------------------------------------

  /** An Autoincrement field holds prefix + str(start + k) in record k: no gaps, no resets. */
  lemma AutoincColumn<K>(fields: seq<(string, K)>, count: nat, states: map<K, FieldState>, draws: nat -> nat -> nat,
                      j: nat, prefix: string, start: int)
    requires Declared(fields, states) && UniqueKeys(fields) && j < |fields|
    requires forall i :: 0 <= i < |fields| && i != j ==> fields[i].1 != fields[j].1
    requires states[fields[j].1] == Fresh().(generator := Autoinc(prefix, start))
    ensures var b := Generate(fields, count, states, draws);
      b.outcome.Ok? ==> forall k :: 0 <= k < |b.outcome.value| ==>
        |b.outcome.value[k]| == |fields| && b.outcome.value[k][j].1 == Str(prefix + Decimal.IntToString(start + k))
  {
    PlainFieldAcrossGenerate(fields, count, states, draws, j);
    forall k | 0 <= k < count
      ensures NthOutput(Autoinc(prefix, start), Column(draws, j), k) == Ok(Str(prefix + Decimal.IntToString(start + k)))
    {
      AutoincSequence(prefix, start, Column(draws, j), k);
    }
  }

  /** After a completed batch of `count` records an Autoincrement field's counter stands at start + count. */
  lemma AutoincAfterBatch<K>(fields: seq<(string, K)>, count: nat, states: map<K, FieldState>, draws: nat -> nat -> nat,
                          j: nat, prefix: string, start: int)
    requires Declared(fields, states) && UniqueKeys(fields) && j < |fields|
    requires forall i :: 0 <= i < |fields| && i != j ==> fields[i].1 != fields[j].1
    requires states[fields[j].1] == Fresh().(generator := Autoinc(prefix, start))
    ensures var b := Generate(fields, count, states, draws);
      b.outcome.Ok? ==>
        && Declared(fields, b.states)
        && b.states[fields[j].1] == Fresh().(generator := Autoinc(prefix, start + count))
  {
    GenerateStep(fields, count, states, draws);
    PlainFieldAcrossGenerate(fields, count, states, draws, j);
    AutoincSequence(prefix, start, Column(draws, j), count);
  }

  /**
   * The numbering carries on from one Generate call to the next on the same model: the
   * second batch of n2 records continues at start + n1, without reset or gap.
   */
  lemma AutoincAcrossBatches<K>(fields: seq<(string, K)>, n1: nat, n2: nat, states: map<K, FieldState>,
                             draws1: nat -> nat -> nat, draws2: nat -> nat -> nat, j: nat, prefix: string, start: int)
    requires Declared(fields, states) && UniqueKeys(fields) && j < |fields|
    requires forall i :: 0 <= i < |fields| && i != j ==> fields[i].1 != fields[j].1
    requires states[fields[j].1] == Fresh().(generator := Autoinc(prefix, start))
    ensures var b1 := Generate(fields, n1, states, draws1);
      b1.outcome.Ok? ==>
        && Declared(fields, b1.states)
        && var b2 := Generate(fields, n2, b1.states, draws2);
           b2.outcome.Ok? ==> forall k :: 0 <= k < |b2.outcome.value| ==>
             |b2.outcome.value[k]| == |fields| && b2.outcome.value[k][j].1 == Str(prefix + Decimal.IntToString(start + n1 + k))
  {
    AutoincAfterBatch(fields, n1, states, draws1, j, prefix, start);
    var b1 := Generate(fields, n1, states, draws1);
    if b1.outcome.Ok? {
      AutoincColumn(fields, n2, b1.states, draws2, j, prefix, start + n1);
    }
  }

  /** A Const field holds its value in every record. */
  lemma ConstColumn<K>(fields: seq<(string, K)>, count: nat, states: map<K, FieldState>, draws: nat -> nat -> nat,
                    j: nat, v: Value)
    requires Declared(fields, states) && UniqueKeys(fields) && j < |fields|
    requires forall i :: 0 <= i < |fields| && i != j ==> fields[i].1 != fields[j].1
    requires states[fields[j].1] == Fresh().(generator := Const(v))
    ensures var b := Generate(fields, count, states, draws);
      b.outcome.Ok? ==> forall k :: 0 <= k < |b.outcome.value| ==>
        |b.outcome.value[k]| == |fields| && b.outcome.value[k][j].1 == v
  {
    PlainFieldAcrossGenerate(fields, count, states, draws, j);
    forall k | 0 <= k < count
      ensures NthOutput(Const(v), Column(draws, j), k) == Ok(v)
    {
      ConstForever(v, Column(draws, j), k);
    }
  }

  /** A Choice field holds a member of its list in every record. */
  lemma ChoiceColumn<K>(fields: seq<(string, K)>, count: nat, states: map<K, FieldState>, draws: nat -> nat -> nat,
                     j: nat, values: seq<Value>)
    requires Declared(fields, states) && UniqueKeys(fields) && j < |fields|
    requires forall i :: 0 <= i < |fields| && i != j ==> fields[i].1 != fields[j].1
    requires states[fields[j].1] == Fresh().(generator := Choice(values))
    ensures var b := Generate(fields, count, states, draws);
      b.outcome.Ok? ==> forall k :: 0 <= k < |b.outcome.value| ==>
        |b.outcome.value[k]| == |fields| && b.outcome.value[k][j].1 in values
  {
    PlainFieldAcrossGenerate(fields, count, states, draws, j);
    forall k | 0 <= k < count
      ensures |values| > 0 ==> NthOutput(Choice(values), Column(draws, j), k).Ok? && NthOutput(Choice(values), Column(draws, j), k).value in values
      ensures |values| == 0 ==> NthOutput(Choice(values), Column(draws, j), k).Err?
    {
      ChoiceAlwaysMember(values, Column(draws, j), k);
    }
  }

  // ---------------------------------------------------------------------------------
  // Id / Type / Label: an Autoincrement field, a Const field and a Derivative of both
  // ---------------------------------------------------------------------------------

  /** `f["Id"] + "_" + f["Type"]`; the record handed to it always holds both keys. */
  function LabelOf(rec: Record): Value
  {
    match (Get(rec, "Id"), Get(rec, "Type"))
    case (Some(Str(id)), Some(Str(kind))) => Str(id + "_" + kind)
    case _ => Str("")
  }

  function LabelFields(): seq<(string, nat)>
  {
    [("Id", 0), ("Type", 1), ("Label", 2)]
  }

  /** Id = String().Autoincrement("T_", 1), Type = String().Const("FLO"), Label = String().Derivative(LabelOf). */
  function LabelStates(): map<nat, FieldState>
  {
    map[0 := Fresh().(generator := Autoinc("T_", 1)),
        1 := Fresh().(generator := Const(Str("FLO"))),
        2 := Fresh().(isDerivative := true, conditionalGenerator := Derive(LabelOf))]
  }

  /** The facts about the Id / Type / Label model the batch lemmas need. */
  lemma LabelModelShape()
    ensures Declared(LabelFields(), LabelStates()) && UniqueKeys(LabelFields())
    ensures AllWellConfigured(LabelStates())
    ensures forall i, j :: 0 <= i < 3 && 0 <= j < 3 && i != j ==> LabelFields()[i].1 != LabelFields()[j].1
    ensures Keys(LabelFields()) == ["Id", "Type", "Label"]
  {
  }

  /** A record whose keys, Id, Type and Label are known is that record. */
  lemma LabelRecord(rec: Record, id: string)
    requires Keys(rec) == ["Id", "Type", "Label"]
    requires rec[0].1 == Str(id) && rec[1].1 == Str("FLO") && rec[2].1 == LabelOf(rec[..2])
    ensures rec == [("Id", Str(id)), ("Type", Str("FLO")), ("Label", Str(id + "_FLO"))]
  {
    assert Keys(rec)[0] == rec[0].0 && Keys(rec)[1] == rec[1].0 && Keys(rec)[2] == rec[2].0;
    var before := rec[..2];
    assert before == [("Id", Str(id)), ("Type", Str("FLO"))];
    assert Get(before, "Id") == Some(Str(id));
    assert Get(before, "Type") == Some(Str("FLO")) by { assert before[1..] == [("Type", Str("FLO"))]; }
    assert id + "_" + "FLO" == id + "_FLO";
    assert |rec| == 3;
  }

  /** The k-th record of the Id / Type / Label model, for any number of records. */
  lemma LabelRecords(fields: seq<(string, nat)>, states: map<nat, FieldState>, count: nat, draws: nat -> nat -> nat)
    requires fields == LabelFields() && states == LabelStates()
    ensures Declared(fields, states)
    ensures var b := Generate(fields, count, states, draws);
      && b.outcome.Ok? && |b.outcome.value| == count
      && forall k :: 0 <= k < count ==>
           var id := "T_" + Decimal.IntToString(1 + k);
           b.outcome.value[k] == [("Id", Str(id)), ("Type", Str("FLO")), ("Label", Str(id + "_FLO"))]
  {
    LabelModelShape();
    GenerateNeverFails(fields, count, states, draws);
    GenerateLength(fields, count, states, draws);
    AutoincColumn(fields, count, states, draws, 0, "T_", 1);
    ConstColumn(fields, count, states, draws, 1, Str("FLO"));
    DerivativeAcrossGenerate(fields, count, states, draws, 2, LabelOf);
    var recs: seq<Record> := Generate(fields, count, states, draws).outcome.value;
    forall k | 0 <= k < count
      ensures var id := "T_" + Decimal.IntToString(1 + k);
        recs[k] == [("Id", Str(id)), ("Type", Str("FLO")), ("Label", Str(id + "_FLO"))]
    {
      LabelRecord(recs[k], "T_" + Decimal.IntToString(1 + k));
    }
  }


  /** The first three trade ids. */
  lemma SmallNumbers()
    ensures Decimal.IntToString(1) == "1" && Decimal.IntToString(2) == "2" && Decimal.IntToString(3) == "3"
  {
  }

  /** The first three records the general lemma describes, written out. */
  lemma FirstThreeLabels(recs: seq<Record>)
    requires |recs| == 3
    requires forall k :: 0 <= k < 3 ==>
      var id := "T_" + Decimal.IntToString(1 + k);
      recs[k] == [("Id", Str(id)), ("Type", Str("FLO")), ("Label", Str(id + "_FLO"))]
    ensures recs == [
      [("Id", Str("T_1")), ("Type", Str("FLO")), ("Label", Str("T_1_FLO"))],
      [("Id", Str("T_2")), ("Type", Str("FLO")), ("Label", Str("T_2_FLO"))],
      [("Id", Str("T_3")), ("Type", Str("FLO")), ("Label", Str("T_3_FLO"))]]
  {
    SmallNumbers();
    assert "T_" + "1" == "T_1" && "T_1" + "_FLO" == "T_1_FLO";
    assert "T_" + "2" == "T_2" && "T_2" + "_FLO" == "T_2_FLO";
    assert "T_" + "3" == "T_3" && "T_3" + "_FLO" == "T_3_FLO";
    assert recs[0] == [("Id", Str("T_1")), ("Type", Str("FLO")), ("Label", Str("T_1_FLO"))];
    assert recs[1] == [("Id", Str("T_2")), ("Type", Str("FLO")), ("Label", Str("T_2_FLO"))];
    assert recs[2] == [("Id", Str("T_3")), ("Type", Str("FLO")), ("Label", Str("T_3_FLO"))];
  }

  /** Three records of the Id / Type / Label model are exactly T_1, T_2 and T_3 with their labels. */
  lemma ThreeLabelRecords(fields: seq<(string, nat)>, states: map<nat, FieldState>, draws: nat -> nat -> nat)
    requires fields == LabelFields() && states == LabelStates()
    ensures Declared(fields, states)
    ensures Generate(fields, 3, states, draws).outcome == Ok([
      [("Id", Str("T_1")), ("Type", Str("FLO")), ("Label", Str("T_1_FLO"))],
      [("Id", Str("T_2")), ("Type", Str("FLO")), ("Label", Str("T_2_FLO"))],
      [("Id", Str("T_3")), ("Type", Str("FLO")), ("Label", Str("T_3_FLO"))]])
  {
    LabelRecords(fields, states, 3, draws);
    FirstThreeLabels(Generate(fields, 3, states, draws).outcome.value);
  }


  // ---------------------------------------------------------------------------------
  // A reduced trade portfolio: TradeId, ComponentId, Party, CounterParty and a CollateralSet
  // chosen by a four-branch condition chain ending in a catch-all. The other fields of the
  // full portfolio are not declared here, so its records hold these five entries only.
  // ---------------------------------------------------------------------------------

  /** Whether the entry `key` of `rec` is the string `s`. A missing key makes this false,
      where the script's `fields[key]` raises KeyError. */
  predicate Is(rec: Record, key: string, s: string)
  {
    Get(rec, key) == Some(Str(s))
  }

  /** `fields["TradeId"] + "_FLO"`. */
  function ComponentIdOf(rec: Record): Value
  {
    match Get(rec, "TradeId")
    case Some(Str(id)) => Str(id + "_FLO")
    case _ => Str("")
  }

  const Parties: seq<Value> := [Str("MYORG"), Str("MYORG1"), Str("MYORG2")]
  const CounterParties: seq<Value> := [Str("BANK1"), Str("BANK2")]
  const MyOrgSets: seq<Value> := [Str("MYORG_CSA1_CSA"), Str("MYORG_CSA2_CSA"), Str("MYORG_CSA3_CSA"), Str("MYORG_CSA4_CSA")]

  function CollateralBranches(): seq<Branch>
  {
    [Branch(rec => Is(rec, "Party", "MYORG") && Is(rec, "CounterParty", "BANK2"), g => Const(Str("MYORG_BANK2_CSA"))),
     Branch(rec => Is(rec, "Party", "MYORG"), g => Choice(MyOrgSets)),
     Branch(rec => Is(rec, "Party", "MYORG1"), g => Choice([Str("MYORG1_DEF_CSA")])),
     Branch(rec => true, g => Const(Str("noCSA")))]
  }

  /** CollateralSet: String() with the four Condition calls and nothing cached yet. */
  function Collateral(): FieldState
  {
    Fresh().(isConditional := true, conditions := CollateralBranches())
  }

  function PortfolioFields(): seq<(string, nat)>
  {
    [("TradeId", 0), ("ComponentId", 1), ("Party", 2), ("CounterParty", 3), ("CollateralSet", 4)]
  }

  function PortfolioStates(): map<nat, FieldState>
  {
    map[0 := Fresh().(generator := Autoinc("T_", 1)),
        1 := Fresh().(isDerivative := true, conditionalGenerator := Derive(ComponentIdOf)),
        2 := Fresh().(generator := Choice(Parties)),
        3 := Fresh().(generator := Choice(CounterParties)),
        4 := Collateral()]
  }

  /**
   * The collateral sets the business rule allows for a trade, stated directly on its parties.
   * It repeats the four predicates of CollateralBranches in the same order, so the lemmas
   * below check the first-match and cache logic against this restatement of the chain,
   * not against a rule stated independently of it.
   */
  function CollateralOptions(rec: Record): seq<Value>
  {
    if Is(rec, "Party", "MYORG") && Is(rec, "CounterParty", "BANK2") then [Str("MYORG_BANK2_CSA")]
    else if Is(rec, "Party", "MYORG") then MyOrgSets
    else if Is(rec, "Party", "MYORG1") then [Str("MYORG1_DEF_CSA")]
    else [Str("noCSA")]
  }

  /** Every cached CollateralSet branch still holds the generator its builder made. */
  ghost predicate CollateralCacheAsBuilt(fs: FieldState)
  {
    && fs.conditionalGenerator == Resolve && fs.isConditional && !fs.isDerivative
    && fs.conditions == CollateralBranches()
    && forall i :: i in fs.cache ==> i < 4 && fs.cache[i] == CollateralBranches()[i].build(Unconfigured)
  }

  /** The branch the chain selects: the first of the four predicates that holds. */
  function CollateralBranch(rec: Record): (i: nat)
    ensures i < 4 && FirstMatch(CollateralBranches(), rec) == Some(i)
  {
    var conds := CollateralBranches();
    assert conds[3].holds(rec);
    if conds[0].holds(rec) then 0
    else
      assert FirstMatchFrom(conds, rec, 0) == FirstMatchFrom(conds, rec, 1);
      if conds[1].holds(rec) then 1
      else
        assert FirstMatchFrom(conds, rec, 1) == FirstMatchFrom(conds, rec, 2);
        if conds[2].holds(rec) then 2
        else
          assert FirstMatchFrom(conds, rec, 2) == FirstMatchFrom(conds, rec, 3);
          3
  }

  /** Every value the branch selected for `rec` can yield is one the rule allows for `rec`. */
  lemma CollateralBranchAllowed(rec: Record, draw: nat)
    ensures var src := CollateralBranches()[CollateralBranch(rec)].build(Unconfigured);
      Pull(src, draw).out.Ok? && Pull(src, draw).out.value in CollateralOptions(rec) && Pull(src, draw).next == src
  {
    var i := CollateralBranch(rec);
    var src := CollateralBranches()[i].build(Unconfigured);
    if i == 1 {
      assert Pull(src, draw).out.value in MyOrgSets;
    }
  }

  /** One CollateralSet value obeys the rule for its partial record and keeps the cache as built. */
  lemma CollateralStep(fs: FieldState, rec: Record, draw: nat)
    requires CollateralCacheAsBuilt(fs)
    ensures var s := Produce(fs, rec, draw);
      s.out.Ok? && s.out.value in CollateralOptions(rec) && CollateralCacheAsBuilt(s.state)
  {
    var i := CollateralBranch(rec);
    CollateralBranchAllowed(rec, draw);
    assert BranchSource(fs, i) == CollateralBranches()[i].build(Unconfigured);
  }

  /** Over any run of records, every CollateralSet value obeys the rule for the record it was computed for. */
  lemma CollateralHistory(recs: seq<Record>, draws: nat -> nat)
    ensures var h := ProduceAll(Collateral(), recs, draws);
      && |h.outs| == |recs|
      && forall k :: 0 <= k < |recs| ==> h.outs[k].Ok? && h.outs[k].value in CollateralOptions(recs[k])
  {
    var inv := st => CollateralCacheAsBuilt(st);
    var good := (rec, out: Result<Value>) => out.Ok? && out.value in CollateralOptions(rec);
    forall st, rec, draw | inv(st)
      ensures good(rec, Produce(st, rec, draw).out) && inv(Produce(st, rec, draw).state)
    {
      CollateralStep(st, rec, draw);
    }
    ProduceAllInvariant(Collateral(), recs, draws, inv, good);
  }

  /** The facts about the portfolio model the batch lemmas need. */
  lemma PortfolioModelShape()
    ensures Declared(PortfolioFields(), PortfolioStates()) && UniqueKeys(PortfolioFields())
    ensures AllWellConfigured(PortfolioStates())
    ensures forall i, j :: 0 <= i < 5 && 0 <= j < 5 && i != j ==> PortfolioFields()[i].1 != PortfolioFields()[j].1
    ensures Keys(PortfolioFields()) == ["TradeId", "ComponentId", "Party", "CounterParty", "CollateralSet"]
  {
    PortfolioWellConfigured(PortfolioStates());
    PortfolioNames(PortfolioFields(), PortfolioStates());
  }

  lemma PortfolioNames(fields: seq<(string, nat)>, states: map<nat, FieldState>)
    requires fields == PortfolioFields() && states == PortfolioStates()
    ensures Declared(fields, states) && UniqueKeys(fields)
    ensures forall i, j :: 0 <= i < 5 && 0 <= j < 5 && i != j ==> fields[i].1 != fields[j].1
    ensures Keys(fields) == ["TradeId", "ComponentId", "Party", "CounterParty", "CollateralSet"]
  {
  }

  lemma PortfolioWellConfigured(states: map<nat, FieldState>)
    requires states == PortfolioStates()
    ensures AllWellConfigured(states)
  {
    CollateralWellConfigured();
    assert forall x :: x in states ==> x < 5;
  }

  /** The CollateralSet field ends in a catch-all and every branch builds a configured source. */
  lemma CollateralWellConfigured()
    ensures WellConfigured(Collateral())
  {
    var c := Collateral();
    assert CatchAll(c.conditions[3]);
    assert forall i :: 0 <= i < 4 ==> Configured(c.conditions[i].build(Unconfigured));
  }

  /** The ComponentId of a record whose first entry is its TradeId. */
  lemma ComponentIdOfTrade(rec: Record, id: string)
    requires |rec| >= 1 && rec[0] == ("TradeId", Str(id))
    ensures ComponentIdOf(rec[..1]) == Str(id + "_FLO")
  {
    assert rec[..1] == [("TradeId", Str(id))];
  }

  /** Trades are numbered T_1, T_2, ... without gaps, and each component id follows its trade id. */
  lemma PortfolioIds(fields: seq<(string, nat)>, states: map<nat, FieldState>, count: nat, draws: nat -> nat -> nat)
    requires fields == PortfolioFields() && states == PortfolioStates()
    ensures Declared(fields, states)
    ensures var b := Generate(fields, count, states, draws);
      && b.outcome.Ok? && |b.outcome.value| == count
      && forall k :: 0 <= k < count ==>
           var rec := b.outcome.value[k];
           var id := "T_" + Decimal.IntToString(1 + k);
           && Keys(rec) == ["TradeId", "ComponentId", "Party", "CounterParty", "CollateralSet"]
           && |rec| == 5 && rec[0].1 == Str(id) && rec[1].1 == Str(id + "_FLO")
  {
    PortfolioModelShape();
    TradeIds(fields, count, states, draws);
  }

  /** The TradeId and ComponentId columns of any well-configured model that starts with those two fields. */
  lemma TradeIds<K>(fields: seq<(string, K)>, count: nat, states: map<K, FieldState>, draws: nat -> nat -> nat)
    requires Declared(fields, states) && UniqueKeys(fields) && AllWellConfigured(states) && |fields| >= 2
    requires forall i, j :: 0 <= i < |fields| && 0 <= j < |fields| && i != j ==> fields[i].1 != fields[j].1
    requires fields[0].0 == "TradeId" && states[fields[0].1] == Fresh().(generator := Autoinc("T_", 1))
    requires states[fields[1].1] == Fresh().(isDerivative := true, conditionalGenerator := Derive(ComponentIdOf))
    ensures var b := Generate(fields, count, states, draws);
      && b.outcome.Ok? && |b.outcome.value| == count
      && forall k :: 0 <= k < count ==>
           var rec := b.outcome.value[k];
           var id := "T_" + Decimal.IntToString(1 + k);
           && Keys(rec) == Keys(fields)
           && |rec| == |fields| && rec[0].1 == Str(id) && rec[1].1 == Str(id + "_FLO")
  {
    GenerateNeverFails(fields, count, states, draws);
    GenerateLength(fields, count, states, draws);
    AutoincColumn(fields, count, states, draws, 0, "T_", 1);
    DerivativeAcrossGenerate(fields, count, states, draws, 1, ComponentIdOf);
    var recs: seq<Record> := Generate(fields, count, states, draws).outcome.value;
    forall k | 0 <= k < count
      ensures recs[k][1].1 == Str("T_" + Decimal.IntToString(1 + k) + "_FLO")
    {
      var rec := recs[k];
      assert Keys(rec)[0] == rec[0].0 == Keys(fields)[0];
      ComponentIdOfTrade(rec, "T_" + Decimal.IntToString(1 + k));
    }
  }


  /** The parties of every trade come from their lists. */
  lemma PortfolioParties(fields: seq<(string, nat)>, states: map<nat, FieldState>, count: nat, draws: nat -> nat -> nat)
    requires fields == PortfolioFields() && states == PortfolioStates()
    ensures Declared(fields, states)
    ensures var b := Generate(fields, count, states, draws);
      b.outcome.Ok? ==> forall k :: 0 <= k < |b.outcome.value| ==>
        |b.outcome.value[k]| == 5 && b.outcome.value[k][2].1 in Parties && b.outcome.value[k][3].1 in CounterParties
  {
    PortfolioModelShape();
    ChoiceColumn(fields, count, states, draws, 2, Parties);
    ChoiceColumn(fields, count, states, draws, 3, CounterParties);
  }

  /** The collateral set of every trade is one the business rule allows for that trade's parties. */
  lemma PortfolioCollateral(fields: seq<(string, nat)>, states: map<nat, FieldState>, count: nat, draws: nat -> nat -> nat)
    requires fields == PortfolioFields() && states == PortfolioStates()
    ensures Declared(fields, states)
    ensures var b := Generate(fields, count, states, draws);
      b.outcome.Ok? ==> forall k :: 0 <= k < |b.outcome.value| ==>
        |b.outcome.value[k]| == 5 && b.outcome.value[k][4].1 in CollateralOptions(b.outcome.value[k][..4])
  {
    PortfolioNames(fields, states);
    CollateralColumn(fields, count, states, draws, 4);
  }

  /** A CollateralSet field declared once holds, in every record of a batch, a set the rule allows for the entries before it. */
  lemma CollateralColumn<K>(fields: seq<(string, K)>, count: nat, states: map<K, FieldState>, draws: nat -> nat -> nat, j: nat)
    requires Declared(fields, states) && UniqueKeys(fields) && j < |fields|
    requires forall i :: 0 <= i < |fields| && i != j ==> fields[i].1 != fields[j].1
    requires states[fields[j].1] == Collateral()
    ensures var b := Generate(fields, count, states, draws);
      b.outcome.Ok? ==> forall k :: 0 <= k < |b.outcome.value| ==>
        |b.outcome.value[k]| == |fields| && b.outcome.value[k][j].1 in CollateralOptions(b.outcome.value[k][..j])
  {
    FieldAcrossGenerate(fields, count, states, draws, j);
    var b := Generate(fields, count, states, draws);
    if b.outcome.Ok? {
      var ps := Prefixes(b.outcome.value, j);
      CollateralHistory(ps, Column(draws, j));
    }
  }

  /**
   * Every batch of the reduced portfolio model succeeds, numbers its trades T_1, T_2, ... without gaps,
   * derives each component id from its trade id, draws the parties from their lists, and
   * picks a collateral set that the business rule allows for the parties of its own record.
   */
  lemma PortfolioBatch(fields: seq<(string, nat)>, states: map<nat, FieldState>, count: nat, draws: nat -> nat -> nat)
    requires fields == PortfolioFields() && states == PortfolioStates()
    ensures Declared(fields, states)
    ensures var b := Generate(fields, count, states, draws);
      && b.outcome.Ok? && |b.outcome.value| == count
      && forall k :: 0 <= k < count ==>
           var rec := b.outcome.value[k];
           var id := "T_" + Decimal.IntToString(1 + k);
           && Keys(rec) == ["TradeId", "ComponentId", "Party", "CounterParty", "CollateralSet"]
           && |rec| == 5
           && rec[0].1 == Str(id)
           && rec[1].1 == Str(id + "_FLO")
           && rec[2].1 in Parties
           && rec[3].1 in CounterParties
           && rec[4].1 in CollateralOptions(rec[..4])
  {
    PortfolioIds(fields, states, count, draws);
    PortfolioParties(fields, states, count, draws);
    PortfolioCollateral(fields, states, count, draws);
  }
}
