/** Values shared by every part of the orchestration model: optional values,
    job fitness (a real number or NaN), parameter values and the ordered
    dictionaries that carry parameter sets and command-line options. */
module Common {

  datatype Option<T> = None | Some(value: T)

  /** A computation that returns a value or raises a Python exception,
      named by its class (`KeyError`, `ValueError`, ...). */
  datatype Result<T> = Ok(value: T) | Err(error: string)

  /** The scalar result of a job. Lower is better; NaN is IEEE's "not a number". */
  datatype Fitness = Num(v: real) | NaN

  /** Python's `a <= b` on floats: false as soon as either side is NaN. */
  predicate FitLe(a: Fitness, b: Fitness)
  {
    a.Num? && b.Num? && a.v <= b.v
  }

  /** A parameter or option value as the descriptor files write them. */
  datatype Value = NoneV | IntV(i: int) | RealV(r: real) | StrV(s: string)

  /** A Python dictionary, as the list of its items in iteration order. */
  type Dict = seq<(string, Value)>

  function Keys(d: Dict): (ks: seq<string>)
    ensures |ks| == |d|
    ensures forall i :: 0 <= i < |d| ==> ks[i] == d[i].0
  {
    if d == [] then [] else [d[0].0] + Keys(d[1..])
  }

  /** No key occurs twice, as in any Python dictionary. */
  predicate UniqueKeys(d: Dict)
  {
    forall i, j :: 0 <= i < j < |d| ==> d[i].0 != d[j].0
  }

  /** No element occurs twice. */
  predicate Distinct<T(==)>(xs: seq<T>)
  {
    forall i, j :: 0 <= i < j < |xs| ==> xs[i] != xs[j]
  }

  /** `d.get(k)`: the value stored under `k`, if any. */
  function Lookup(d: Dict, k: string): (r: Option<Value>)
    ensures r.Some? <==> k in Keys(d)
    ensures r.Some? ==> exists i :: 0 <= i < |d| && d[i] == (k, r.value)
  {
    if d == [] then None
    else if d[0].0 == k then Some(d[0].1)
    else Lookup(d[1..], k)
  }

  /** `d[k] = v`: an existing key keeps its position, a new key goes last. */
  function Set(d: Dict, k: string, v: Value): (r: Dict)
    ensures k in Keys(d) ==> Keys(r) == Keys(d)
    ensures k !in Keys(d) ==> Keys(r) == Keys(d) + [k]
  {
    if d == [] then [(k, v)]
    else if d[0].0 == k then [(k, v)] + d[1..]
    else
      var r := [d[0]] + Set(d[1..], k, v);
      assert Keys(r) == [d[0].0] + Keys(Set(d[1..], k, v));
      r
  }

  /** After `d[k] = v`, `k` maps to `v` and every other key is unchanged. */
  lemma {:induction false} SetLookup(d: Dict, k: string, v: Value, k': string)
    ensures Lookup(Set(d, k, v), k') == if k' == k then Some(v) else Lookup(d, k')
  {
    if d != [] && d[0].0 != k {
      SetLookup(d[1..], k, v, k');
    }
  }

  /** `d.update(e)`: every item of `e`, in order, is stored into `d`. */
  function Update(d: Dict, e: Dict): Dict
    decreases e
  {
    if e == [] then d else Update(Set(d, e[0].0, e[0].1), e[1..])
  }

  /** After `d.update(e)`, a key of `e` maps to its value in `e` and every
      other key keeps its value in `d`. */
  lemma {:induction false} UpdateLookup(d: Dict, e: Dict, k: string)
    requires UniqueKeys(e)
    ensures Lookup(Update(d, e), k) == if k in Keys(e) then Lookup(e, k) else Lookup(d, k)
    decreases e
  {
    if e != [] {
      assert UniqueKeys(e[1..]);
      SetLookup(d, e[0].0, e[0].1, k);
      UpdateLookup(Set(d, e[0].0, e[0].1), e[1..], k);
      if k == e[0].0 {
        assert k !in Keys(e[1..]);
      }
    }
  }

  /** `d.update(e)` keeps the keys of `d` in place and appends new ones. */
  lemma {:induction false} UpdateKeepsKeys(d: Dict, e: Dict)
    ensures forall k :: k in Keys(d) ==> k in Keys(Update(d, e))
    ensures forall k :: k in Keys(e) ==> k in Keys(Update(d, e))
    decreases e
  {
    if e != [] {
      var d' := Set(d, e[0].0, e[0].1);
      UpdateKeepsKeys(d', e[1..]);
      forall k | k in Keys(e) ensures k in Keys(Update(d, e)) {
        if k != e[0].0 {
          assert k in Keys(e[1..]);
        }
      }
    }
  }

  /** The items of `d` whose key is one of `names` (a sub-dictionary). */
  function Restrict(d: Dict, names: seq<string>): (r: Dict)
    ensures forall k :: Lookup(r, k) == if k in names then Lookup(d, k) else None
  {
    if d == [] then []
    else if d[0].0 in names then [d[0]] + Restrict(d[1..], names)
    else Restrict(d[1..], names)
  }

  /** Python's `pattern in text` on strings. */
  predicate Contains(text: string, pattern: string)
    decreases |text|
  {
    pattern <= text || (text != [] && Contains(text[1..], pattern))
  }

  /** Truncation toward zero, Python's `int(x)` on a float. */
  function Trunc(x: real): (r: int)
    ensures x >= 0.0 ==> r as real <= x < r as real + 1.0
    ensures x < 0.0 ==> r as real - 1.0 < x <= r as real
  {
    if x >= 0.0 then x.Floor else -((-x).Floor)
  }

  /** The number as a real, for numeric comparison of ints and floats. */
  function NumberOf(v: Value): Option<real>
  {
    match v
    case IntV(i) => Some(i as real)
    case RealV(r) => Some(r)
    case _ => None
  }
}
