/**
 * Two behaviours of samplesome.py as written that the rest of this model corrects:
 * `conditions` and `cachedConditionalGenerators` are class attributes of DataType, and
 * `fields` is a class attribute of Model, so every instance appends to and reads from one
 * shared list (or dict). Each is modelled here as written and shown to differ from the
 * per-instance behaviour on a concrete input.
 */
module Findings {
  import opened Outcomes
  import opened Records
  import opened Sources
  import opened Fields
  import opened Assembly

  // ---------------------------------------------------------------------------------
  // Conditions and branch cache shared by every DataType instance
  // ---------------------------------------------------------------------------------

  function Always(rec: Record): bool { true }

  /** Condition(lambda f: True, lambda s: s.Const(v)). */
  function ConstBranch(v: string): Branch
  {
    Branch(Always, g => Const(Str(v)))
  }

  /**
   * As written, Condition appends to the one list every instance reads, and resolution
   * indexes the one shared cache: all conditional fields then behave as a single field
   * object holding every branch declared so far. So two fields A and B, each given one
   * catch-all branch, are one state under two names.
   */
  function SharedConditionsModel(): (seq<(string, nat)>, map<nat, FieldState>)
  {
    ([("A", 0), ("B", 0)],
     map[0 := Fresh().(isConditional := true, conditions := [ConstBranch("X"), ConstBranch("Y")])])
  }

  /** The same two declarations with per-instance conditions and cache. */
  function OwnConditionsModel(): (seq<(string, nat)>, map<nat, FieldState>)
  {
    ([("A", 0), ("B", 1)],
     map[0 := Fresh().(isConditional := true, conditions := [ConstBranch("X")]),
         1 := Fresh().(isConditional := true, conditions := [ConstBranch("Y")])])
  }

  /** One conditional field with a single catch-all branch yields that branch's constant. */
  lemma CatchAllConst(fs: FieldState, v: string, partial: Record, draw: nat)
    requires fs.isConditional && fs.conditionalGenerator == Resolve
    requires |fs.conditions| >= 1 && fs.conditions[0] == ConstBranch(v)
    requires forall i :: i in fs.cache ==> fs.cache[i] == Const(Str(v))
    ensures Produce(fs, partial, draw).out == Ok(Str(v))
    ensures var s := Produce(fs, partial, draw).state;
      s.conditions == fs.conditions && s.isConditional && s.conditionalGenerator == Resolve &&
      forall i :: i in s.cache ==> s.cache[i] == Const(Str(v))
  {
    assert FirstMatch(fs.conditions, partial) == Some(0);
  }

  /**
   * As written, field B's first matching branch is A's catch-all, so B yields "X", and it
   * does so by reusing A's cached branch: B's own builder never runs.
   */
  lemma SharedConditionsCollide(draws: nat -> nat)
    ensures var (fields, states) := SharedConditionsModel();
      GenerateOne(fields, states, draws).outcome == Ok([("A", Str("X")), ("B", Str("X"))])
  {
    var (fields, states) := SharedConditionsModel();
    var s1 := Produce(states[0], [], draws(0));
    CatchAllConst(states[0], "X", [], draws(0));
    var rec1: Record := [("A", Str("X"))];
    assert GenerateOne(fields, states, draws) == RunFrom(fields, 1, rec1, map[0 := s1.state], draws);
    var s2 := Produce(s1.state, rec1, draws(1));
    CatchAllConst(s1.state, "X", rec1, draws(1));
    var rec2: Record := [("A", Str("X")), ("B", Str("X"))];
    assert Put(rec1, "B", Str("X")) == rec2;
    assert RunFrom(fields, 1, rec1, map[0 := s1.state], draws) == RunFrom(fields, 2, rec2, map[0 := s2.state], draws);
  }

  /** With per-instance conditions each field yields its own branch's value: B yields "Y". */
  lemma OwnConditionsResolveOwnBranch(draws: nat -> nat)
    ensures var (fields, states) := OwnConditionsModel();
      GenerateOne(fields, states, draws).outcome == Ok([("A", Str("X")), ("B", Str("Y"))])
  {
    var (fields, states) := OwnConditionsModel();
    var s1 := Produce(states[0], [], draws(0));
    CatchAllConst(states[0], "X", [], draws(0));
    var rec1: Record := [("A", Str("X"))];
    var states1 := states[0 := s1.state];
    assert GenerateOne(fields, states, draws) == RunFrom(fields, 1, rec1, states1, draws);
    var s2 := Produce(states1[1], rec1, draws(1));
    CatchAllConst(states1[1], "Y", rec1, draws(1));
    var rec2: Record := [("A", Str("X")), ("B", Str("Y"))];
    assert Put(rec1, "B", Str("Y")) == rec2;
    assert RunFrom(fields, 1, rec1, states1, draws) == RunFrom(fields, 2, rec2, states1[1 := s2.state], draws);
  }

  // ---------------------------------------------------------------------------------
  // One field list shared by every Model
  // ---------------------------------------------------------------------------------

  /** One call `models[m].Field(name, value)`. */
  datatype FieldCall<K> = FieldCall(model: nat, name: string, value: K)

  /** The field list any Model reads, as written: every Field call on any Model, in call order. */
  function SharedFieldList<K>(calls: seq<FieldCall<K>>): (fields: seq<(string, K)>)
    ensures |fields| == |calls|
    ensures forall i :: 0 <= i < |calls| ==> fields[i] == (calls[i].name, calls[i].value)
  {
    if calls == [] then []
    else SharedFieldList(calls[..|calls| - 1]) + [(calls[|calls| - 1].name, calls[|calls| - 1].value)]
  }

  /** The field list of Model `m` when each Model keeps its own: only the calls made on it. */
  function OwnFieldList<K>(calls: seq<FieldCall<K>>, m: nat): (fields: seq<(string, K)>)
    ensures |fields| <= |calls|
    ensures forall f :: f in fields ==> exists i :: 0 <= i < |calls| && calls[i] == FieldCall(m, f.0, f.1)
  {
    if calls == [] then []
    else
      var last := calls[|calls| - 1];
      OwnFieldList(calls[..|calls| - 1], m) + if last.model == m then [(last.name, last.value)] else []
  }

  /**
   * Model 0 declares TradeId and Model 1 declares Amount. As written, a record of Model 1
   * carries Model 0's TradeId as well; with per-instance lists it holds Amount alone.
   */
  lemma ModelsShareFields(draws: nat -> nat)
    ensures var calls := [FieldCall(0, "TradeId", 0), FieldCall(1, "Amount", 1)];
      var states := map[0 := Fresh().(generator := Const(Str("T_1"))), 1 := Fresh().(generator := Const(Int(100)))];
      && SharedFieldList(calls) == [("TradeId", 0), ("Amount", 1)]
      && OwnFieldList(calls, 1) == [("Amount", 1)]
      && GenerateOne(SharedFieldList(calls), states, draws).outcome == Ok([("TradeId", Str("T_1")), ("Amount", Int(100))])
      && GenerateOne(OwnFieldList(calls, 1), states, draws).outcome == Ok([("Amount", Int(100))])
  {
    var calls := [FieldCall(0, "TradeId", 0), FieldCall(1, "Amount", 1)];
    var states := map[0 := Fresh().(generator := Const(Str("T_1"))), 1 := Fresh().(generator := Const(Int(100)))];
    assert calls[..1] == [FieldCall(0, "TradeId", 0)];
    assert OwnFieldList(calls[..1], 1) == [];
    var shared: seq<(string, nat)> := [("TradeId", 0), ("Amount", 1)];
    var own: seq<(string, nat)> := [("Amount", 1)];
    var rec1: Record := [("TradeId", Str("T_1"))];
    var states1 := states[0 := states[0]];
    assert GenerateOne(shared, states, draws) == RunFrom(shared, 1, rec1, states1, draws);
    assert Put(rec1, "Amount", Int(100)) == [("TradeId", Str("T_1")), ("Amount", Int(100))];
    assert RunFrom(shared, 1, rec1, states1, draws)
        == RunFrom(shared, 2, [("TradeId", Str("T_1")), ("Amount", Int(100))], states1[1 := states[1]], draws);
    assert GenerateOne(own, states, draws) == RunFrom(own, 1, [("Amount", Int(100))], states[1 := states[1]], draws);
  }
}
