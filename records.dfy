/** Generated values and the ordered name -> value map (an OrderedDict) that holds one record. */
module Records {
  import opened Outcomes

  /** A scalar a field yields: the engine's String and Integer kinds. */
  datatype Value = Str(s: string) | Int(i: int)

  /** An OrderedDict from field name to value: entries in the order their keys were first inserted. */
  type Record = seq<(string, Value)>

  /** The keys of a record, or the names of a model's fields, in their order. */
  function Keys<V>(r: seq<(string, V)>): seq<string>
  {
    seq(|r|, i requires 0 <= i < |r| => r[i].0)
  }

  /** No element appears twice. */
  predicate NoDuplicates<T(==)>(s: seq<T>)
  {
    forall a, b :: 0 <= a < b < |s| ==> s[a] != s[b]
  }

  /** No key appears twice (every OrderedDict satisfies this; a model's field names need not). */
  predicate UniqueKeys<V>(r: seq<(string, V)>)
  {
    forall i, j :: 0 <= i < j < |r| ==> r[i].0 != r[j].0
  }

  /** `r[k]`: the value stored under `k`, if any. */
  function Get(r: Record, k: string): (v: Option<Value>)
    ensures v.None? <==> k !in Keys(r)
  {
    if r == [] then None
    else
      assert Keys(r) == [r[0].0] + Keys(r[1..]);
      if r[0].0 == k then Some(r[0].1) else Get(r[1..], k)
  }

  /** `r[k] = v`: overwrite the value of an existing key in place, or append a new key at the end. */
  function Put(r: Record, k: string, v: Value): Record
  {
    if r == [] then [(k, v)]
    else if r[0].0 == k then [(k, v)] + r[1..]
    else [r[0]] + Put(r[1..], k, v)
  }

  /** Storing a value makes it the one read back, and leaves every other key's value alone. */
  lemma {:induction false} PutThenGet(r: Record, k: string, v: Value, k': string)
    ensures Get(Put(r, k, v), k) == Some(v)
    ensures k' != k ==> Get(Put(r, k, v), k') == Get(r, k')
  {
    if r != [] && r[0].0 != k {
      PutThenGet(r[1..], k, v, k');
      assert Put(r, k, v)[1..] == Put(r[1..], k, v);
    }
  }

  /** Storing under an existing key keeps the key order; a new key goes last. */
  lemma {:induction false} PutKeys(r: Record, k: string, v: Value)
    ensures Keys(Put(r, k, v)) == if k in Keys(r) then Keys(r) else Keys(r) + [k]
  {
    if r == [] {
    } else if r[0].0 == k {
      assert k in Keys(r) by { assert Keys(r)[0] == k; }
      assert Keys(Put(r, k, v)) == Keys(r);
    } else {
      PutKeys(r[1..], k, v);
      assert Keys(r) == [r[0].0] + Keys(r[1..]);
      assert Keys(Put(r, k, v)) == [r[0].0] + Keys(Put(r[1..], k, v));
    }
  }

  /** A key not yet present is appended: the earlier entries are untouched. */
  lemma {:induction false} PutNew(r: Record, k: string, v: Value)
    requires k !in Keys(r)
    ensures Put(r, k, v) == r + [(k, v)]
  {
    if r != [] {
      assert Keys(r) == [r[0].0] + Keys(r[1..]);
      PutNew(r[1..], k, v);
    }
  }

  /** Storing never introduces a duplicate key. */
  lemma {:induction false} PutKeepsUnique(r: Record, k: string, v: Value)
    requires UniqueKeys(r)
    ensures UniqueKeys(Put(r, k, v))
  {
    PutKeys(r, k, v);
    var r' := Put(r, k, v);
    assert |Keys(r')| == |r'|;
    forall i, j | 0 <= i < j < |r'| ensures r'[i].0 != r'[j].0 {
      assert Keys(r')[i] == r'[i].0 && Keys(r')[j] == r'[j].0;
      if k in Keys(r) {
        assert Keys(r)[i] == r[i].0 && Keys(r)[j] == r[j].0;
      } else {
        assert Keys(r)[..] == Keys(r')[..|r|];
        if j == |r| {
          assert r'[j].0 == k;
          assert Keys(r)[i] == r'[i].0;
        } else {
          assert Keys(r)[i] == r[i].0 && Keys(r)[j] == r[j].0;
        }
      }
    }
  }
}
