/** Plain JavaScript objects with string keys, as the page uses them: a finite map
    that also remembers the order in which its keys were first defined, which is the
    order `Object.keys`, `Object.values` and `Object.entries` enumerate them in. */
module JsObject {

  datatype Option<T> = None | Some(value: T)

  /** Using a missing value (`undefined`) as a property key yields the key "undefined". */
  const UNDEFINED_KEY: string := "undefined"

  function KeyOf(o: Option<string>): string {
    match o
    case Some(k) => k
    case None => UNDEFINED_KEY
  }

  predicate NoDup(ks: seq<string>) {
    forall i, j | 0 <= i < j < |ks| :: ks[i] != ks[j]
  }

  /** An object: its own keys in definition order and the value of each. */
  datatype Dict<V> = Dict(keys: seq<string>, vals: map<string, V>)

  /** What every object the page builds satisfies: each key listed once, and listed exactly
      when it has a value. */
  predicate WellFormed<V>(o: Dict<V>) {
    && NoDup(o.keys)
    && (forall k | k in o.keys :: k in o.vals)
    && (forall k | k in o.vals :: k in o.keys)
  }

  function Empty<V>(): Dict<V> {
    Dict([], map[])
  }

  /** `o[k]`, where a missing key reads as `undefined`. */
  function Get<V>(o: Dict<V>, k: string): Option<V> {
    if k in o.vals then Some(o.vals[k]) else None
  }

  /** The key order after defining `k`: a key already present keeps its place, a new one goes last. */
  function AddKey(ks: seq<string>, k: string): seq<string> {
    if k in ks then ks else ks + [k]
  }

  /** `o[k] = v`. */
  function Set<V>(o: Dict<V>, k: string, v: V): Dict<V> {
    Dict(AddKey(o.keys, k), o.vals[k := v])
  }

  lemma SetWellFormed<V>(o: Dict<V>, k: string, v: V)
    requires WellFormed(o)
    ensures WellFormed(Set(o, k, v))
  {
  }

  /** The values of the keys `ks`, in that order. */
  function ValuesOf<V>(ks: seq<string>, vals: map<string, V>): seq<V> {
    if ks == [] then []
    else
      var k := ks[|ks| - 1];
      ValuesOf(ks[..|ks| - 1], vals) + (if k in vals then [vals[k]] else [])
  }

  /** The entries of the keys `ks`, in that order. */
  function EntriesOf<V>(ks: seq<string>, vals: map<string, V>): seq<(string, V)> {
    if ks == [] then []
    else
      var k := ks[|ks| - 1];
      EntriesOf(ks[..|ks| - 1], vals) + (if k in vals then [(k, vals[k])] else [])
  }

  /** `Object.values(o)`. */
  function Values<V>(o: Dict<V>): seq<V> {
    ValuesOf(o.keys, o.vals)
  }

  /** `Object.entries(o)`. */
  function Entries<V>(o: Dict<V>): seq<(string, V)> {
    EntriesOf(o.keys, o.vals)
  }

  /** The values of an object are those of its keys, in key order. */
  lemma {:induction false} ValuesOfSpec<V>(ks: seq<string>, vals: map<string, V>)
    requires forall k | k in ks :: k in vals
    ensures |ValuesOf(ks, vals)| == |ks|
    ensures forall i | 0 <= i < |ks| :: ValuesOf(ks, vals)[i] == vals[ks[i]]
  {
    if ks != [] {
      ValuesOfSpec(ks[..|ks| - 1], vals);
    }
  }

  /** The entries of an object pair each of its keys, in key order, with its value. */
  lemma {:induction false} EntriesOfSpec<V>(ks: seq<string>, vals: map<string, V>)
    requires forall k | k in ks :: k in vals
    ensures |EntriesOf(ks, vals)| == |ks|
    ensures forall i | 0 <= i < |ks| :: EntriesOf(ks, vals)[i] == (ks[i], vals[ks[i]])
  {
    if ks != [] {
      EntriesOfSpec(ks[..|ks| - 1], vals);
    }
  }

  /** The key column of a list of entries. */
  function KeysOf<V>(es: seq<(string, V)>): (r: seq<string>)
    ensures |r| == |es|
    ensures forall i | 0 <= i < |es| :: r[i] == es[i].0
  {
    seq(|es|, i requires 0 <= i < |es| => es[i].0)
  }

  /** The index of the first occurrence of `x` in `ks`. */
  function FirstIndex(ks: seq<string>, x: string): (i: nat)
    requires x in ks
    ensures i < |ks| && ks[i] == x && x !in ks[..i]
  {
    if ks[0] == x then 0
    else
      var i := 1 + FirstIndex(ks[1..], x);
      assert ks[..i] == [ks[0]] + ks[1..][..i - 1];
      i
  }

  /** The index of the last occurrence of `x` in `ks`. */
  function LastIndex(ks: seq<string>, x: string): (i: nat)
    requires x in ks
    ensures i < |ks| && ks[i] == x && x !in ks[i + 1..]
  {
    if ks[|ks| - 1] == x then |ks| - 1
    else
      assert ks == ks[..|ks| - 1] + [ks[|ks| - 1]];
      var i := LastIndex(ks[..|ks| - 1], x);
      assert ks[i + 1..] == ks[..|ks| - 1][i + 1..] + [ks[|ks| - 1]];
      i
  }

  /** The distinct elements of `ks`, each at the place of its first occurrence. */
  function FirstOccurrences(ks: seq<string>): seq<string> {
    if ks == [] then [] else AddKey(FirstOccurrences(ks[..|ks| - 1]), ks[|ks| - 1])
  }

  /** `Object.fromEntries(es)`: a repeated key keeps the place of its first occurrence
      and the value of its last. */
  function FromEntries<V>(es: seq<(string, V)>): Dict<V> {
    if es == [] then Empty() else Set(FromEntries(es[..|es| - 1]), es[|es| - 1].0, es[|es| - 1].1)
  }

  /** `Object.fromEntries(es)` defines exactly the keys of `es`, each once, in order of first
      occurrence. */
  lemma {:induction false} FromEntriesKeys<V>(es: seq<(string, V)>)
    ensures FromEntries(es).keys == FirstOccurrences(KeysOf(es))
    ensures forall k :: k in FromEntries(es).vals <==> k in KeysOf(es)
    ensures WellFormed(FromEntries(es))
  {
    if es != [] {
      assert KeysOf(es) == KeysOf(es[..|es| - 1]) + [es[|es| - 1].0];
      FromEntriesKeys(es[..|es| - 1]);
    }
  }

  /** Each key of `Object.fromEntries(es)` holds the value of the last entry with that key. */
  lemma {:induction false} FromEntriesValue<V>(es: seq<(string, V)>, k: string)
    requires k in KeysOf(es)
    ensures k in FromEntries(es).vals
    ensures FromEntries(es).vals[k] == es[LastIndex(KeysOf(es), k)].1
  {
    var init, last := es[..|es| - 1], es[|es| - 1];
    assert KeysOf(es) == KeysOf(init) + [last.0];
    FromEntriesKeys(es);
    if last.0 != k {
      FromEntriesKeys(init);
      FromEntriesValue(init, k);
      LastIndexOfPrefix(KeysOf(init), last.0, k);
    }
  }

  /** A key that no entry has is not defined by `Object.fromEntries`. */
  lemma FromEntriesMissing<V>(es: seq<(string, V)>, k: string)
    requires k !in KeysOf(es)
    ensures k !in FromEntries(es).vals
  {
    FromEntriesKeys(es);
  }

  lemma LastIndexOfPrefix(ks: seq<string>, z: string, x: string)
    requires x in ks && x != z
    ensures LastIndex(ks + [z], x) == LastIndex(ks, x)
  {
    var ks' := ks + [z];
    var i, i' := LastIndex(ks, x), LastIndex(ks', x);
    assert ks'[i] == x && ks'[i'] == x;
    assert ks[i + 1..] + [z] == ks'[i + 1..];
  }

  lemma FirstIndexOfPrefix(ks: seq<string>, z: string, x: string)
    requires x in ks
    ensures FirstIndex(ks + [z], x) == FirstIndex(ks, x)
  {
    var ks' := ks + [z];
    var i, i' := FirstIndex(ks, x), FirstIndex(ks', x);
    assert ks'[i] == x;
    assert ks'[..i] == ks[..i];
  }

  /** The first occurrences hold every element of `ks` exactly once, ordered by where
      each element first occurs in `ks`. */
  lemma {:induction false} FirstOccurrencesSpec(ks: seq<string>)
    ensures NoDup(FirstOccurrences(ks))
    ensures forall x :: x in FirstOccurrences(ks) <==> x in ks
    ensures forall i, j | 0 <= i < j < |FirstOccurrences(ks)| ::
              FirstIndex(ks, FirstOccurrences(ks)[i]) < FirstIndex(ks, FirstOccurrences(ks)[j])
  {
    if ks != [] {
      var init, z := ks[..|ks| - 1], ks[|ks| - 1];
      assert ks == init + [z];
      FirstOccurrencesSpec(init);
      var prev := FirstOccurrences(init);
      var r := FirstOccurrences(ks);
      forall x | x in prev
        ensures FirstIndex(ks, x) == FirstIndex(init, x) < |init|
      {
        FirstIndexOfPrefix(init, z, x);
      }
      if z !in prev {
        assert r == prev + [z];
        assert z !in init;
        assert FirstIndex(ks, z) == |init| by {
          assert ks[|init|] == z && z !in ks[..|init|];
        }
        forall i, j | 0 <= i < j < |r|
          ensures FirstIndex(ks, r[i]) < FirstIndex(ks, r[j])
        {
          if j < |prev| {
            assert r[i] == prev[i] && r[j] == prev[j];
          } else {
            assert r[i] == prev[i];
          }
        }
      }
    }
  }
}
