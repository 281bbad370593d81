/**
 * Value sources: the infinite Python generators that String.Autoincrement, String.Const,
 * String.Choice, Integer.Uniform and Integer.Choice install as a field's `generator`, each
 * written as its state. Random draws come from an abstract oracle: every pull is handed a
 * `draw`, and any sequence of draws the random module could make is some choice of them.
 */
module Sources {
  import opened Outcomes
  import opened Records
  import Decimal

  datatype Source =
    | Unconfigured                        // default_generator: a plain function, so next() on it fails
    | Finished                            // a generator whose body raised: every later next() stops
    | Const(value: Value)                 // cst()
    | Autoinc(prefix: string, next: int)  // incr(), with the value `i` holds before its next yield
    | Choice(values: seq<Value>)          // chc() of String.Choice and Integer.Choice
    | Uniform(min: int, max: int)         // chc() of Integer.Uniform: random.randint(min, max)

  /** What one next() gives, and the generator's state after it. */
  datatype Pulled = Pulled(out: Result<Value>, next: Source)

  /**
   * next(g). A generator body that raises finishes the generator, so the error is reported
   * once and every later call raises StopIteration; the default generator is stateless.
   */
  function Pull(g: Source, draw: nat): Pulled
  {
    match g
    case Unconfigured => Pulled(Err(TypeError), g)
    case Finished => Pulled(Err(StopIteration), g)
    case Const(v) => Pulled(Ok(v), g)
    case Autoinc(p, i) => Pulled(Ok(Str(p + Decimal.IntToString(i))), Autoinc(p, i + 1))
    case Choice(vs) =>
      if |vs| == 0 then Pulled(Err(IndexError), Finished)
      else Pulled(Ok(vs[draw % |vs|]), g)
    case Uniform(lo, hi) =>
      if lo > hi then Pulled(Err(ValueError), Finished)
      else Pulled(Ok(Int(lo + draw % (hi - lo + 1))), g)
  }

  /** The generator's state after `k` calls of next(), the i-th one drawing `draws(i)`. */
  function Advance(g: Source, draws: nat -> nat, k: nat): Source
    decreases k
  {
    if k == 0 then g else Pull(Advance(g, draws, k - 1), draws(k - 1)).next
  }

  /** What the (k+1)-th call of next() gives. */
  function NthOutput(g: Source, draws: nat -> nat, k: nat): Result<Value>
  {
    Pull(Advance(g, draws, k), draws(k)).out
  }

  /** Const(v) yields v on every call. */
  lemma {:induction false} ConstForever(v: Value, draws: nat -> nat, k: nat)
    ensures Advance(Const(v), draws, k) == Const(v)
    ensures NthOutput(Const(v), draws, k) == Ok(v)
  {
    if k > 0 {
      ConstForever(v, draws, k - 1);
    }
  }

  /** Autoincrement(prefix, start) yields prefix + str(start + k) on its (k+1)-th call. */
  lemma {:induction false} AutoincSequence(prefix: string, start: int, draws: nat -> nat, k: nat)
    ensures Advance(Autoinc(prefix, start), draws, k) == Autoinc(prefix, start + k)
    ensures NthOutput(Autoinc(prefix, start), draws, k) == Ok(Str(prefix + Decimal.IntToString(start + k)))
  {
    if k > 0 {
      AutoincSequence(prefix, start, draws, k - 1);
    }
  }

  /** An Autoincrement source never repeats a value. */
  lemma AutoincNoRepeats(prefix: string, start: int, draws: nat -> nat, j: nat, k: nat)
    requires j != k
    ensures NthOutput(Autoinc(prefix, start), draws, j) != NthOutput(Autoinc(prefix, start), draws, k)
  {
    AutoincSequence(prefix, start, draws, j);
    AutoincSequence(prefix, start, draws, k);
    var x, y := Decimal.IntToString(start + j), Decimal.IntToString(start + k);
    Decimal.IntToStringInjective(start + j, start + k);
    assert (prefix + x)[|prefix|..] == x && (prefix + y)[|prefix|..] == y;
  }

  /** A Choice over a non-empty list yields one of its members on every call; over an empty one it raises once, then stops. */
  lemma {:induction false} ChoiceAlwaysMember(values: seq<Value>, draws: nat -> nat, k: nat)
    ensures |values| > 0 ==> Advance(Choice(values), draws, k) == Choice(values)
    ensures |values| > 0 ==> NthOutput(Choice(values), draws, k).Ok? && NthOutput(Choice(values), draws, k).value in values
    ensures |values| == 0 ==> NthOutput(Choice(values), draws, k) == if k == 0 then Err(IndexError) else Err(StopIteration)
  {
    if k > 0 {
      ChoiceAlwaysMember(values, draws, k - 1);
      if |values| == 0 {
        FinishedStays(Choice(values), draws, 1, k);
      }
    }
  }

  /** Every member of a Choice list is yielded for some draw. */
  lemma ChoiceCoversAll(values: seq<Value>, v: Value)
    requires v in values
    ensures exists draw: nat :: Pull(Choice(values), draw).out == Ok(v)
  {
    var i :| 0 <= i < |values| && values[i] == v;
    SmallMod(i, |values|);
    assert Pull(Choice(values), i).out == Ok(v);
  }

  /** A draw below the modulus is its own remainder. */
  lemma SmallMod(d: nat, m: int)
    requires d < m
    ensures d % m == d
  {
  }

  /** Uniform(min, max) yields an integer in [min, max] on every call; an empty range raises once, then stops. */
  lemma {:induction false} UniformInRange(lo: int, hi: int, draws: nat -> nat, k: nat)
    ensures lo <= hi ==> Advance(Uniform(lo, hi), draws, k) == Uniform(lo, hi)
    ensures lo <= hi ==> var out := NthOutput(Uniform(lo, hi), draws, k);
      out.Ok? && out.value.Int? && lo <= out.value.i <= hi
    ensures lo > hi ==> NthOutput(Uniform(lo, hi), draws, k) == if k == 0 then Err(ValueError) else Err(StopIteration)
  {
    if k > 0 {
      UniformInRange(lo, hi, draws, k - 1);
      if lo > hi {
        FinishedStays(Uniform(lo, hi), draws, 1, k);
      }
    }
  }

  /** Every integer of [min, max] is yielded for some draw. */
  lemma UniformCoversAll(lo: int, hi: int, x: int)
    requires lo <= x <= hi
    ensures exists draw: nat :: Pull(Uniform(lo, hi), draw).out == Ok(Int(x))
  {
    var d: nat := x - lo;
    SmallMod(d, hi - lo + 1);
    assert Pull(Uniform(lo, hi), d).out == Ok(Int(x));
  }

  /** A field left without a generator fails on every call. */
  lemma {:induction false} UnconfiguredAlwaysFails(draws: nat -> nat, k: nat)
    ensures Advance(Unconfigured, draws, k) == Unconfigured
    ensures NthOutput(Unconfigured, draws, k) == Err(TypeError)
  {
    if k > 0 {
      UnconfiguredAlwaysFails(draws, k - 1);
    }
  }

  /** A generator whose next() never raises: everything but an empty Choice, an empty Uniform range and the unconfigured or finished ones. */
  predicate Configured(g: Source)
  {
    match g
    case Const(_) => true
    case Autoinc(_, _) => true
    case Choice(vs) => |vs| > 0
    case Uniform(lo, hi) => lo <= hi
    case _ => false
  }

  /** One call of a configured generator yields a value and leaves it configured. */
  lemma PullConfigured(g: Source, draw: nat)
    requires Configured(g)
    ensures Pull(g, draw).out.Ok? && Configured(Pull(g, draw).next)
  {
  }

  /** A configured generator yields a value on every call and stays configured; any other one raises. */
  lemma {:induction false} ConfiguredNeverFails(g: Source, draws: nat -> nat, k: nat)
    ensures Configured(g) ==> Configured(Advance(g, draws, k)) && NthOutput(g, draws, k).Ok?
    ensures !Configured(g) ==> Pull(g, draws(0)).out.Err?
  {
    if k > 0 {
      ConfiguredNeverFails(g, draws, k - 1);
      if Configured(g) {
        PullConfigured(Advance(g, draws, k - 1), draws(k - 1));
      }
    }
  }

  /** Once finished, a generator stays finished. */
  lemma {:induction false} FinishedStays(g: Source, draws: nat -> nat, j: nat, k: nat)
    requires j <= k
    requires Advance(g, draws, j) == Finished
    ensures Advance(g, draws, k) == Finished
    decreases k - j
  {
    if j < k {
      FinishedStays(g, draws, j + 1, k);
    }
  }
}
