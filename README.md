# samplesome: a verified model of the record generation engine

samplesome builds synthetic tabular data. A `Model` is an ordered list of named fields. Each field is a
`DataType` (a `String` or an `Integer`) configured in one of three ways:

- **Plain**: an infinite value source: `Autoincrement(prefix, start)`, `Const(v)`, `Choice(values)` or
  `Uniform(min, max)`;
- **Derivative**: a function of the values of the fields declared before it;
- **Conditional**: an ordered chain of `(predicate, builder)` pairs. The first predicate that holds
  of the partial record selects a branch. The branch's builder configures a fresh instance the first
  time that branch is selected, and the built generator is then cached and reused.

`GenerateOne` fills one record (an `OrderedDict`) field by field in declaration order, handing each
field the record built so far; `Generate(n)` makes `n` records in a row without resetting any source.

The project has two layers.

- A pure specification layer:
  - `Outcomes`: the errors, `Option` and `Result`. Each error is named after the Python exception
    class raised, except `ConditionsExhausted`, which stands for the bare
    `Exception("Not all possible conditions have been provided")` of the resolver;
  - `Records`: the ordered record with `Get` and `Put`;
  - `Decimal`: Python's `str` for integers, and its inverse;
  - `Sources`: the value sources, each a datatype of its state, with `Pull` for one `next()`;
  - `Fields`: one field's attributes as a value. `Produce` computes one field's value for one
    record, with the Plain/Derivative/Conditional dispatch and conditional resolution over the
    branch cache. `ProduceAll` runs a field over many records and records which builders ran.
  - `Assembly`: `GenerateOne` and `Generate` over a list of named field objects and a map from
    object to state. Because the states are keyed by object, one object declared under two names is
    handled as the source handles it: the two names share one state.
- An imperative layer, `Samplesome`, with the classes the source defines:
  - `DataType`: its fields and its fluent configuration methods (each returns `self`);
  - `NextValue`: the resolution loop over `conditions` that writes the cache lazily;
  - `Model`: `Field`, plus `GenerateOne` and `Generate` as loops.

  Every method is proved against the specification functions. A ghost sequence `builderRuns` logs
  every builder invocation, and the class invariant keeps it free of duplicates and equal, as a set,
  to the cached indices.

Randomness is an oracle:

- each `next()` is given a natural number `draw`;
- `Choice(vs)` yields `vs[draw % |vs|]` and `Uniform(lo, hi)` yields `lo + draw % (hi - lo + 1)`;
- `GenerateOne` takes one draw per field position, and `Generate` one per record and field.

Every sequence of values the random module can produce is obtained by some choice of draws, and
every property below holds for all draws.

`Scenarios` uses the engine on two models:

- Id / Type / Label: an Autoincrement `Id`, a Const `Type` and a Derivative `Label` of both. This
  model is adapted from the TradeId / ComponentId declarations of `examples/generate_portfolio.py`
  and does not appear there as such. Three records are exactly `T_1/FLO/T_1_FLO`, `T_2/FLO/T_2_FLO` and `T_3/FLO/T_3_FLO`.
- A reduced portfolio built from the declarations of `examples/generate_portfolio.py`: `TradeId`,
  `ComponentId`, the two parties and the four-branch `CollateralSet` chain, in that order. Its
  records hold these five entries only. The script's other string and integer fields are not
  declared: `ComponentType`, `NettingSet`, `Book`, `Buy`, `PeriodLength`, `Currency`,
  `DiscountIndex`, `FloatIndex` and `NumberOfPeriods`. Its float fields `Spread` and `Notional`
  fall under the floating-point line of "Left out". The portfolio lemmas are about this
  five-field model, not about the script's sixteen-field record.

`Findings` models the class-level state as written.

## Model

| member | source | states |
|---|---|---|
| `Decimal.NatToString` | samplesome/samplesome.py:91 | the digits of a natural number: non-empty, all decimal digits, no leading zero, "0" for zero |
| `Decimal.IntToString` | samplesome/samplesome.py:91 | `str(i)`: non-empty, and starts with '-' exactly when `i` is negative |
| `Decimal.NatRoundTrip` | samplesome/samplesome.py:91 | reading back the digits of `n` gives `n` |
| `Decimal.IntRoundTrip` | samplesome/samplesome.py:91 | `int(str(i)) == i` for every integer, negative ones included |
| `Decimal.IntToStringInjective` | samplesome/samplesome.py:91 | distinct integers print differently |
| `Records.Get` | examples/generate_portfolio.py:31 | `fields[key]` as the callbacks read it: a lookup finds nothing exactly when the key is not in the record |
| `Records.Put` | samplesome/samplesome.py:233 | `ret[name] = value` on an OrderedDict: replaces the value of an existing key in place, else appends the entry; its properties are `PutThenGet`, `PutKeys`, `PutNew` and `PutKeepsUnique` |
| `Records.PutThenGet` | samplesome/samplesome.py:233 | after `ret[name] = value` the key reads back `value` and every other key reads back what it held before |
| `Records.PutKeys` | samplesome/samplesome.py:233 | storing under an existing key keeps the key order; a new key goes last |
| `Records.PutNew` | samplesome/samplesome.py:233 | storing under a new key appends exactly that entry |
| `Records.PutKeepsUnique` | samplesome/samplesome.py:233 | a record never holds a key twice |
| `Sources.Pull` | samplesome/samplesome.py:33-36 | one `next()` on each kind of generator (the default function, the generators of lines 87-139, a finished generator): its value or exception and its state afterwards; the lemmas below state what each kind yields over any number of calls |
| `Sources.ConstForever` | samplesome/samplesome.py:97-102 | `Const(v)` yields `v` on every call and never changes state |
| `Sources.AutoincSequence` | samplesome/samplesome.py:87-95 | the (k+1)-th value of `Autoincrement(prefix, start)` is `prefix + str(start + k)`, and the counter after k calls is `start + k` |
| `Sources.AutoincNoRepeats` | samplesome/samplesome.py:87-95 | an Autoincrement source never yields the same value twice |
| `Sources.ChoiceAlwaysMember` | samplesome/samplesome.py:104-109 | `Choice(values)` (String and Integer alike, lines 134-139) over a non-empty list yields a member on every call; over an empty list the first call raises IndexError and every later call StopIteration |
| `Sources.ChoiceCoversAll` | samplesome/samplesome.py:104-109 | every member of the list is yielded for some draw |
| `Sources.UniformInRange` | samplesome/samplesome.py:127-132 | `Uniform(min, max)` yields an integer in `[min, max]` on every call; with `min > max` the first call raises ValueError and every later call StopIteration |
| `Sources.UniformCoversAll` | samplesome/samplesome.py:127-132 | every integer of `[min, max]` is yielded for some draw |
| `Sources.UnconfiguredAlwaysFails` | samplesome/samplesome.py:33-36 | `next()` on the default generator, a plain function, raises TypeError on every call |
| `Sources.PullConfigured` | samplesome/samplesome.py:87-139 | one call of a configured source yields a value and leaves it configured |
| `Sources.ConfiguredNeverFails` | samplesome/samplesome.py:87-139 | a configured source yields a value on every call; any other source raises on its first call |
| `Sources.FinishedStays` | samplesome/samplesome.py:104-109 | once a generator body has raised, the generator stays finished |
| `Fields.Fresh` | samplesome/samplesome.py:29-53 | the attributes `__init__` leaves: the default generator, the resolver as conditional generator, neither flag, no conditions and an empty cache; `Samplesome.DataType.constructor` ensures a new object has exactly this state |
| `Fields.FirstMatchFrom` | samplesome/samplesome.py:38-52 | the index found is the lowest one whose predicate holds; none is found exactly when no predicate holds |
| `Fields.BranchSource` | samplesome/samplesome.py:42-47 | the generator branch `i` pulls from: the cached one when index `i` is cached, else what its builder makes of a fresh instance; `ConditionalField` and `BuildsAtMostOnce` state how it is used |
| `Fields.Produce` | samplesome/samplesome.py:229-232 | producing a value never changes a field's configuration (dispatch, flags, conditions) |
| `Fields.PlainField` | samplesome/samplesome.py:231-232 | a plain field pulls its own generator once and ignores the partial record |
| `Fields.DerivativeField` | samplesome/samplesome.py:64-73 | once Derivative is called the value is `f(partial)`, whatever conditions were declared, and nothing changes |
| `Fields.ConditionalField` | samplesome/samplesome.py:38-52 | the lowest matching index `i` selects the branch; its cached generator, or the builder's on a fresh instance, yields the value; only cache entry `i` changes; with no match resolution fails and nothing changes |
| `Fields.ProduceCache` | samplesome/samplesome.py:42-47 | the cache grows by exactly the index whose builder ran, and every unselected entry is kept |
| `Fields.WellConfiguredNeverFails` | samplesome/samplesome.py:38-52 | a configured plain field, a Derivative, or conditions ending in a catch-all with configuring builders always yields a value and stays so |
| `Fields.BuildsAtMostOnce` | samplesome/samplesome.py:42-47 | over any run of records each branch's builder runs at most once, never for a cached index, and the cache ends up holding exactly the earlier entries plus those built |
| `Fields.ProduceAllKeepsConfig` | samplesome/samplesome.py:229-232 | a field's configuration survives any run of records, with one output per record |
| `Fields.ProduceAllInvariant` | samplesome/samplesome.py:229-232 | a property of a field's state that every single value keeps holds after any run of records, and each value of the run satisfies what every single step guarantees |
| `Fields.UnselectedBranchUntouched` | samplesome/samplesome.py:42-49 | a cached branch that no record selects keeps its generator state |
| `Fields.PlainHistory` | samplesome/samplesome.py:230-232 | over a run of records a plain field yields its generator's successive values and ends with its generator advanced once per record |
| `Fields.DerivativeHistory` | samplesome/samplesome.py:64-73 | over a run of records a Derivative field yields `f` of each record and never changes |
| `Assembly.RunFrom` | samplesome/samplesome.py:226-234 | a run keeps exactly the set of field objects it started with |
| `Assembly.RunFromStep` | samplesome/samplesome.py:228-233 | one iteration of the loop: a failing field ends the record with its error and its advanced state; a succeeding field stores its value under its name and hands on to the next field |
| `Assembly.GenerateOne` | samplesome/samplesome.py:226-234 | the whole loop from field 0 and an empty record; `RunShape`, `FieldSeesEarlierFields`, `RunNeverFails` and `Samplesome.Model.GenerateOne` state what it computes |
| `Assembly.RepeatFrom` | samplesome/samplesome.py:239-242 | the loop of Generate from record `k`: a batch keeps exactly the set of field objects it started with |
| `Assembly.Generate` | samplesome/samplesome.py:236-242 | AssertionError for a negative count, else the loop from record 0; `GenerateStep`, `GenerateLength` and `GenerateNeverFails` state what it computes |
| `Assembly.RunKeepsConfig` | samplesome/samplesome.py:226-234 | generating a record changes no field's configuration |
| `Assembly.RunUntouched` | samplesome/samplesome.py:228-233 | a field object not among the remaining fields keeps its state |
| `Assembly.RunShape` | samplesome/samplesome.py:227-234 | with unique names a completed record's keys are the declared names in declaration order, and it extends the partial record |
| `Assembly.RunSplit` | samplesome/samplesome.py:228-234 | running the first `j` fields and then the rest is the whole run; a failure among the first `j` is the record's failure |
| `Assembly.FieldSeesEarlierFields` | samplesome/samplesome.py:228-233 | in a completed record field `j` was handed exactly the entries of the fields before it, and produced its own entry from them |
| `Assembly.DerivativeRecomputed` | samplesome/samplesome.py:229-230 | a Derivative field's entry is `f` of the entries before it |
| `Assembly.UnmatchedConditionAborts` | samplesome/samplesome.py:51-52 | when no condition of a field holds of the entries before it, GenerateOne returns no record but the resolution error |
| `Assembly.CompletedRecordMatchedEveryCondition` | samplesome/samplesome.py:38-52 | in a completed record some predicate of every conditional field held of the entries before it |
| `Assembly.FieldInRecord` | samplesome/samplesome.py:228-233 | a field object declared once is asked for exactly one value per completed record, and that call alone changes its state |
| `Assembly.RepeatStep` | samplesome/samplesome.py:239-242 | one more iteration of Generate's loop appends one GenerateOne on the states the earlier records left |
| `Assembly.GenerateStep` | samplesome/samplesome.py:236-242 | `Generate(0)` is empty; `Generate(n+1)` is `Generate(n)` followed by one GenerateOne with the states it left, and a failure stops the batch |
| `Assembly.GenerateLength` | samplesome/samplesome.py:236-242 | for any field list a negative count raises AssertionError and a completed batch holds exactly `count` records; with unique names each record is keyed by the declared names |
| `Assembly.FieldAcrossGenerate` | samplesome/samplesome.py:236-242 | across a batch a field declared once behaves as that field alone fed the partial records its position saw, with no reset between records |
| `Assembly.FieldAcrossStep` | samplesome/samplesome.py:239-242 | one more completed record extends a field's history by exactly the value and state of its call in that record |
| `Assembly.PlainFieldAcrossGenerate` | samplesome/samplesome.py:230-242 | the k-th record holds the (k+1)-th value of a plain field's generator, and after the batch the generator has advanced exactly `count` times: no gaps and no resets across records or batches |
| `Assembly.DerivativeAcrossGenerate` | samplesome/samplesome.py:64-73 | in every record of a batch a Derivative field holds `f` of the entries before it |
| `Assembly.RunNeverFails` | samplesome/samplesome.py:226-234 | with every field well configured a record always completes and the fields stay well configured |
| `Assembly.GenerateNeverFails` | samplesome/samplesome.py:236-242 | with every field well configured Generate fails exactly for a negative count, and otherwise returns `count` records |
| `Samplesome.DataType.constructor` | samplesome/samplesome.py:30-54 | a new instance has the default generator, the resolver as conditional generator, no conditions, an empty cache and no builder runs |
| `Samplesome.DataType.CreateInstance` | samplesome/samplesome.py:56-57 | a fresh, unconfigured instance |
| `Samplesome.DataType.Condition` | samplesome/samplesome.py:59-62 | appends exactly one branch, sets the conditional flag, changes nothing else and returns the same object |
| `Samplesome.DataType.Derivative` | samplesome/samplesome.py:64-73 | replaces the conditional generator by `f`, sets the derivative flag, keeps the conditions and returns the same object |
| `Samplesome.DataType.Autoincrement` | samplesome/samplesome.py:87-95 | installs a counter source at `start` (defaults "" and 0) and returns the same object |
| `Samplesome.DataType.Const` | samplesome/samplesome.py:97-102 | installs a constant source and returns the same object |
| `Samplesome.DataType.Choice` | samplesome/samplesome.py:104-109 | installs a choice over `values` and returns the same object |
| `Samplesome.DataType.Uniform` | samplesome/samplesome.py:127-132 | installs a uniform integer source over `[min, max]` and returns the same object |
| `Samplesome.DataType.NextValue` | samplesome/samplesome.py:38-52 | the loop's value and new state are those of `Produce`, and it logs exactly the builder runs `BuilderRuns` predicts while keeping the cache invariant |
| `Samplesome.DataType.PullBranch` | samplesome/samplesome.py:42-50 | for the selected branch the value and new state are those of `Produce`; the builder runs, and is logged, exactly when the index is not cached |
| `Samplesome.Model.constructor` | samplesome/samplesome.py:218-219 | a new model has its name and no fields |
| `Samplesome.Model.Field` | samplesome/samplesome.py:221-224 | refuses a missing value with AssertionError; otherwise appends exactly `(name, value)` after the earlier entries and returns the same model |
| `Samplesome.Model.GenerateOne` | samplesome/samplesome.py:226-234 | the loop returns what `Assembly.GenerateOne` computes from the fields' states and leaves the states it computes |
| `Samplesome.Model.NextField` | samplesome/samplesome.py:229-233 | one field's call changes that field object's state as `Produce` says and leaves every other field object as it was |
| `Samplesome.Model.OneFieldChanged` | samplesome/samplesome.py:228-233 | when only one declared field object changes, the model's invariant still holds and its states change at that object only |
| `Samplesome.Model.Generate` | samplesome/samplesome.py:236-242 | refuses a negative count; otherwise the loop returns what `Assembly.Generate` computes and leaves the states it computes |
| `Scenarios.LabelRecords` | samplesome/samplesome.py:64-102 | a three-field model adapted from the TradeId / ComponentId declarations of examples/generate_portfolio.py, with the Const field before the Derivative: Id = Autoincrement("T_", 1), Type = Const("FLO"), Label = Id + "_" + Type: the k-th record is `T_{k+1}`, `FLO`, `T_{k+1}_FLO`, for any number of records |
| `Scenarios.ThreeLabelRecords` | samplesome/samplesome.py:64-102 | three records of that model are exactly T_1/FLO/T_1_FLO, T_2/FLO/T_2_FLO and T_3/FLO/T_3_FLO |
| `Scenarios.AutoincColumn` | samplesome/samplesome.py:87-95 | an Autoincrement field declared once holds `prefix + str(start + k)` in record k of any completed batch |
| `Scenarios.AutoincAfterBatch` | samplesome/samplesome.py:87-95 | after a completed batch of `count` records the Autoincrement field's counter stands at `start + count` |
| `Scenarios.AutoincAcrossBatches` | samplesome/samplesome.py:230-242 | a second Generate call on the same model continues the numbering at `start + n1`: no reset and no gap between calls |
| `Scenarios.ConstColumn` | samplesome/samplesome.py:97-102 | a Const field declared once holds its value in every record of a completed batch |
| `Scenarios.CollateralStep` | examples/generate_portfolio.py:62-69 | one CollateralSet value is one the business rule allows for its partial record, and the cache keeps only built branches; a record missing a key the script reads is covered too (see "## Left out") |
| `Scenarios.CollateralBranch` | examples/generate_portfolio.py:62-69 | every partial record selects one of the four CollateralSet branches, the last being a catch-all |
| `Scenarios.CollateralBranchAllowed` | examples/generate_portfolio.py:62-69 | the branch selected for a record, once built, yields a collateral set the rule allows for that record and keeps its state |
| `Scenarios.CollateralHistory` | examples/generate_portfolio.py:62-69 | over any run of records every CollateralSet value obeys the rule for its own record; records missing a key the script reads are covered too (see "## Left out") |
| `Scenarios.TradeIds` | examples/generate_portfolio.py:25-31 | in any well-configured model starting with TradeId and ComponentId, trade k is `T_{k+1}` and its component is `T_{k+1}_FLO` |
| `Scenarios.PortfolioIds` | examples/generate_portfolio.py:25-31 | the reduced five-field portfolio numbers its trades without gaps and derives each component id from its trade id |
| `Scenarios.ChoiceColumn` | samplesome/samplesome.py:104-109 | a Choice field declared once holds a member of its list in every record of a batch |
| `Scenarios.PortfolioParties` | examples/generate_portfolio.py:48-49 | every trade's parties come from their lists |
| `Scenarios.PortfolioCollateral` | examples/generate_portfolio.py:62-69 | every trade's collateral set is one the rule allows for its own parties |
| `Scenarios.CollateralColumn` | examples/generate_portfolio.py:62-69 | a CollateralSet field declared once holds, in every record of a batch, a set the rule allows for the entries before it, also when those entries lack a key the script reads (see "## Left out") |
| `Scenarios.PortfolioBatch` | examples/generate_portfolio.py:25-69 | every batch of the reduced five-field portfolio (TradeId, ComponentId, Party, CounterParty, CollateralSet) succeeds with all of the above in every record |
| `Findings.SharedConditionsCollide` | samplesome/samplesome.py:24-25 | as written, two conditional fields with one catch-all each share one branch list and cache, and the second field yields the first field's value |
| `Findings.OwnConditionsResolveOwnBranch` | samplesome/samplesome.py:24-25 | with per-instance conditions each field yields its own branch's value |
| `Findings.SharedFieldList` | samplesome/samplesome.py:214 | as written, the field list every Model reads holds every Field call on any Model, in call order |
| `Findings.OwnFieldList` | samplesome/samplesome.py:214 | with per-instance lists a Model's fields come only from the calls made on it |
| `Findings.ModelsShareFields` | samplesome/samplesome.py:214-224 | as written, a record of the second Model carries the first Model's field; with per-instance lists it does not |

## Left out

- Floating point: `Integer.Exponential`, `Float.Exponential`, `Gaussian`/`Normal`, `Uniform` and `Kde` need numpy and scipy samplers. The class `Float` is not part of this model. Its `Choice` returns a one-element list, and it has no `CreateInstance` of its own.
- `Model.GenerateToCsv` (CSV export through pandas), `ModelField` (unused), `Distr` (an empty base class), the `parent` argument of `DataType.__init__`, and `Model.index` (never read): none affects generation.
- The random number generator and its seeding: replaced by the draw oracle described above.
- Samplesome.DataType.Choice: the `weights` argument is not modelled. The contract covers the support of the choice, not its probabilities. Mismatched weights, which make `random.choices` raise, are out of scope. The list is also stored by value. The source's generator keeps a reference to the caller's list (samplesome/samplesome.py:104-108 and 134-138), so a change the caller makes to that list after `Choice` changes the later values in the source but not in the model.
- Samplesome.DataType.constructor: `String` and `Integer` are one class here, so a source may mix string and integer values. The class also decides which configuration methods exist. `String` (samplesome/samplesome.py:80-109) has no `Uniform`; `Integer` (samplesome/samplesome.py:112-139) has no `Const` and no `Autoincrement`. The merged class accepts every method on every instance. So `Integer().Const(v)`, `Integer().Autoincrement()` and `String().Uniform(min, max)` raise AttributeError in the source but succeed here. Likewise a branch builder that calls such a method raises AttributeError in the source the first time its branch is selected, but succeeds here.
- Samplesome.DataType.Const: succeeds on an instance standing for an `Integer`, where the source raises AttributeError.
- Samplesome.DataType.Autoincrement: succeeds on an instance standing for an `Integer`, where the source raises AttributeError.
- Samplesome.DataType.Uniform: succeeds on an instance standing for a `String`, where the source raises AttributeError.
- Samplesome.DataType.Condition: a builder is a function from the fresh instance's generator to the generator it leaves there. Only that generator is used (line 49), so a branch configured as Derivative or Conditional is seen through its unconfigured generator, as in the source. Builders that return another object, or that change other objects, are not modelled.
- Samplesome.DataType.Derivative: predicates, derivative functions and builders are total functions. A callback that raises, such as a `KeyError` on a missing key or a `TypeError` on adding a number to a string, is not modelled. In the scenarios, a lookup of a missing key is an ordinary comparison that fails (`Scenarios.Is`), or yields an empty string (`Scenarios.ComponentIdOf`). `Scenarios.CollateralStep`, `Scenarios.CollateralHistory` and `Scenarios.CollateralColumn` therefore also cover records with no `Party` entry, and records with `Party` equal to "MYORG" but no `CounterParty` entry. There the script raises KeyError (examples/generate_portfolio.py:63), while the model selects a later branch, down to "noCSA" when `Party` is missing. In the reduced portfolio both parties are declared before `CollateralSet` and `TradeId` before `ComponentId`, so `Scenarios.PortfolioBatch` never meets a missing key.
- Samplesome.DataType.NextValue: the cache holds each branch's generator by value, not the built instance. Nothing but `.generator` is ever read from a cached instance.
- Samplesome.Model.GenerateOne: duplicate field names are covered at the record level (`Records.PutKeys`: an existing key keeps its position and gets the new value). The batch lemmas assume unique names.
- Python-level type errors, such as a field name that is not a string or a `count` that is not an integer, are excluded by the Dafny types.

## Findings

| source | as written | input that shows it | evidently intended | confidence | as-written member | corrected member |
|---|---|---|---|---|---|---|
| samplesome/samplesome.py:24-25 | `conditions` and `cachedConditionalGenerators` are class attributes that `Condition` and the resolver mutate through `self`, so every DataType instance shares one branch list and one cache | field A with `Condition(lambda f: True, lambda s: s.Const("X"))`, field B with `Condition(lambda f: True, lambda s: s.Const("Y"))`: B's first match is A's branch, so B yields "X" | each field resolves over its own conditions and cache, so B yields "Y" | high, not executed | `Findings.SharedConditionsCollide` | `Findings.OwnConditionsResolveOwnBranch` |
| samplesome/samplesome.py:214 | `fields` is a class attribute that `Field` appends to, so every Model shares one field list | Model 0 declares TradeId, Model 1 declares Amount: a record of Model 1 holds TradeId and Amount | a Model generates only its own fields | high, not executed | `Findings.ModelsShareFields` | `Samplesome.Model.Field` |

The rest of the model uses the corrected, per-instance state. `Fields.FieldState` carries each
instance's conditions and cache, and `Samplesome.Model` keeps its own `fields`.
