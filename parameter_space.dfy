/** The parameter space the generators walk: per-parameter range
    descriptions, the grid (cross product of the dtype-converted ranges, in
    cross-product order), filtering of candidate parameter sets, and the
    predefined random samplers (`uniform`, `randint`). */
module ParameterSpace {
  import opened Common

  /** The `dtype` of a parameter: Python's `int` (truncation toward zero)
      or `float`. */
  datatype Dtype = IntType | FloatType

  /** `dtype(x)` on a number of the range. */
  function Convert(dtype: Dtype, x: real): (v: Value)
    ensures dtype == IntType ==> v.IntV?
    ensures dtype == IntType && x >= 0.0 ==> v.IntV? && v.i as real <= x < v.i as real + 1.0
    ensures dtype == IntType && x < 0.0 ==> v.IntV? && v.i as real - 1.0 < x <= v.i as real
    ensures dtype == IntType && x.Floor as real == x ==> v == IntV(x.Floor)
    ensures dtype == FloatType ==> v == RealV(x)
  {
    match dtype
    case IntType => IntV(Trunc(x))
    case FloatType => RealV(x)
  }

  /** One entry of `dict_parameters_range`; keys that may be absent are
      options. A `sampling_fct` maps a uniform draw in [0, 1) to a value. */
  datatype ParamRange = ParamRange(
    dtype: Dtype,
    range: Option<seq<real>>,
    samplingFct: Option<real -> Value>,
    samplingType: Option<string>,
    low: Option<real>,
    high: Option<real>,
    x0: Option<real>,
    scaling: Option<real>)

  /** `dict_parameters_range`, in iteration order. */
  type Ranges = seq<(string, ParamRange)>

  // ---------------------------------------------------------------------
  // Grid mode: the cross product of the converted ranges.

  /** One axis of the grid: a parameter name and its converted values. */
  type Axis = (string, seq<Value>)

  function ConvertAll(dtype: Dtype, xs: seq<real>): (vs: seq<Value>)
    ensures |vs| == |xs|
    ensures forall i :: 0 <= i < |xs| ==> vs[i] == Convert(dtype, xs[i])
  {
    if xs == [] then [] else [Convert(dtype, xs[0])] + ConvertAll(dtype, xs[1..])
  }

  /** The axes of the grid, or `KeyError` when a parameter has no `range`. */
  function GridAxes(ranges: Ranges): (r: Result<seq<Axis>>)
    ensures r.Ok? <==> forall i :: 0 <= i < |ranges| ==> ranges[i].1.range.Some?
    ensures r.Ok? ==> |r.value| == |ranges| && forall i :: 0 <= i < |ranges| ==>
              r.value[i] == (ranges[i].0, ConvertAll(ranges[i].1.dtype, ranges[i].1.range.value))
  {
    if ranges == [] then Ok([])
    else if ranges[0].1.range.None? then Err("KeyError")
    else
      var tail := GridAxes(ranges[1..]);
      assert forall i :: 1 <= i < |ranges| ==> ranges[i] == ranges[1..][i - 1];
      if tail.Err? then tail
      else Ok([(ranges[0].0, ConvertAll(ranges[0].1.dtype, ranges[0].1.range.value))] + tail.value)
  }

  /** `item` put in front of each of the dictionaries. */
  function Prepend(item: (string, Value), rest: seq<Dict>): (r: seq<Dict>)
    ensures |r| == |rest|
    ensures forall i :: 0 <= i < |rest| ==> r[i] == [item] + rest[i]
  {
    seq(|rest|, i requires 0 <= i < |rest| => [item] + rest[i])
  }

  /** Each value of the first axis, slowest, in front of every combination
      of the other axes. */
  function Extend(name: string, vals: seq<Value>, rest: seq<Dict>): seq<Dict>
  {
    if vals == [] then [] else Prepend((name, vals[0]), rest) + Extend(name, vals[1..], rest)
  }

  /** The cross product of the axes, the first axis varying slowest; each
      combination already zipped with the parameter names. */
  function Cross(axes: seq<Axis>): seq<Dict>
  {
    if axes == [] then [[]] else Extend(axes[0].0, axes[0].1, Cross(axes[1..]))
  }

  /** `d` picks, in order, one value of each axis under that axis's name. */
  predicate Fits(d: Dict, axes: seq<Axis>)
  {
    |d| == |axes| && forall k :: 0 <= k < |d| ==> d[k].0 == axes[k].0 && d[k].1 in axes[k].1
  }

  function Product(axes: seq<Axis>): nat
  {
    if axes == [] then 1 else |axes[0].1| * Product(axes[1..])
  }

  lemma {:induction false} ExtendLength(name: string, vals: seq<Value>, rest: seq<Dict>)
    ensures |Extend(name, vals, rest)| == |vals| * |rest|
  {
    if vals != [] {
      ExtendLength(name, vals[1..], rest);
      assert |vals| * |rest| == |rest| + (|vals| - 1) * |rest|;
    }
  }

  lemma {:induction false} ExtendAt(name: string, vals: seq<Value>, rest: seq<Dict>, i: nat, j: nat)
    requires i < |vals| && j < |rest|
    ensures i * |rest| + j < |Extend(name, vals, rest)|
    ensures Extend(name, vals, rest)[i * |rest| + j] == [(name, vals[i])] + rest[j]
  {
    var p := Prepend((name, vals[0]), rest);
    var t := Extend(name, vals[1..], rest);
    assert Extend(name, vals, rest) == p + t;
    if i == 0 {
      assert Extend(name, vals, rest)[j] == p[j];
    } else {
      ExtendAt(name, vals[1..], rest, i - 1, j);
      var k := (i - 1) * |rest| + j;
      assert i * |rest| + j == |rest| + k;
      assert Extend(name, vals, rest)[|rest| + k] == t[k];
      assert vals[1..][i - 1] == vals[i];
    }
  }

  lemma ExtendShape(name: string, vals: seq<Value>, rest: seq<Dict>)
    ensures |Extend(name, vals, rest)| == |vals| * |rest|
    ensures forall i, j :: 0 <= i < |vals| && 0 <= j < |rest| ==>
              i * |rest| + j < |vals| * |rest| &&
              Extend(name, vals, rest)[i * |rest| + j] == [(name, vals[i])] + rest[j]
  {
    ExtendLength(name, vals, rest);
    forall i, j | 0 <= i < |vals| && 0 <= j < |rest|
      ensures i * |rest| + j < |vals| * |rest|
      ensures Extend(name, vals, rest)[i * |rest| + j] == [(name, vals[i])] + rest[j]
    {
      ExtendAt(name, vals, rest, i, j);
    }
  }

  lemma {:induction false} ExtendMember(name: string, vals: seq<Value>, rest: seq<Dict>, d: Dict)
    ensures d in Extend(name, vals, rest) <==> |d| >= 1 && d[0].0 == name && d[0].1 in vals && d[1..] in rest
  {
    if vals != [] {
      ExtendMember(name, vals[1..], rest, d);
      var p := Prepend((name, vals[0]), rest);
      assert Extend(name, vals, rest) == p + Extend(name, vals[1..], rest);
      if d in p {
        var i :| 0 <= i < |p| && p[i] == d;
        assert d[1..] == rest[i];
      }
      if |d| >= 1 && d[0] == (name, vals[0]) && d[1..] in rest {
        var i :| 0 <= i < |rest| && rest[i] == d[1..];
        assert d == [(name, vals[0])] + d[1..];
        assert p[i] == d;
      }
      assert vals == [vals[0]] + vals[1..];
    }
  }

  /** The grid holds exactly the dictionaries that pick one value per axis,
      in axis order. */
  lemma {:induction false} CrossMember(axes: seq<Axis>, d: Dict)
    ensures d in Cross(axes) <==> Fits(d, axes)
  {
    if axes != [] {
      ExtendMember(axes[0].0, axes[0].1, Cross(axes[1..]), d);
      if |d| >= 1 {
        CrossMember(axes[1..], d[1..]);
        if Fits(d, axes) {
          forall k | 0 <= k < |d| - 1
            ensures d[1..][k].0 == axes[1..][k].0 && d[1..][k].1 in axes[1..][k].1
          {
            assert d[1..][k] == d[k + 1];
          }
        }
        if Fits(d[1..], axes[1..]) && d[0].0 == axes[0].0 && d[0].1 in axes[0].1 {
          forall k | 0 <= k < |d| ensures d[k].0 == axes[k].0 && d[k].1 in axes[k].1 {
            if k > 0 {
              assert d[k] == d[1..][k - 1];
            }
          }
        }
      }
    } else {
      assert Fits(d, []) ==> d == [];
    }
  }

  /** The grid has one combination per choice of a value on every axis. */
  lemma {:induction false} CrossSize(axes: seq<Axis>)
    ensures |Cross(axes)| == Product(axes)
  {
    if axes != [] {
      CrossSize(axes[1..]);
      ExtendShape(axes[0].0, axes[0].1, Cross(axes[1..]));
    }
  }

  // ---------------------------------------------------------------------
  // Filtering.

  /** What a filtering function decides about one candidate: it accepts
      (possibly after rewriting it in place), rejects (`False` or `None`), or
      raises an exception. */
  datatype Verdict = Accept(params: Dict) | Reject | Raise(error: string)

  /** The `filtering_function` of a descriptor, with its range dictionary and
      its `filtering_function_parameters` already bound. */
  datatype Filter = NoFilter | FilterFn(f: Dict -> Verdict)

  /** `(filtering_function is None) or filtering_function(new_parameters, ...)`. */
  function Apply(filter: Filter, d: Dict): Verdict
  {
    match filter
    case NoFilter => Accept(d)
    case FilterFn(f) => f(d)
  }

  /** The candidates that pass, in order, as the filter left them; the first
      exception stops the loop. */
  function Screen(filter: Filter, cands: seq<Dict>): Result<seq<Dict>>
  {
    if cands == [] then Ok([])
    else
      match Apply(filter, cands[0])
      case Raise(e) => Err(e)
      case Reject => Screen(filter, cands[1..])
      case Accept(d) =>
        var tail := Screen(filter, cands[1..]);
        if tail.Err? then tail else Ok([d] + tail.value)
  }

  /** Without a filter every candidate is kept, in order. */
  lemma {:induction false} ScreenNoFilter(cands: seq<Dict>)
    ensures Screen(NoFilter, cands) == Ok(cands)
  {
    if cands != [] {
      ScreenNoFilter(cands[1..]);
      assert cands == [cands[0]] + cands[1..];
    }
  }

  /** Everything kept is what the filter accepted for some candidate, and
      every candidate the filter accepts is kept. */
  lemma {:induction false} ScreenMember(filter: Filter, cands: seq<Dict>, d: Dict)
    requires Screen(filter, cands).Ok?
    ensures d in Screen(filter, cands).value <==> exists c :: c in cands && Apply(filter, c) == Accept(d)
  {
    if cands != [] {
      ScreenMember(filter, cands[1..], d);
      assert forall c :: c in cands <==> c == cands[0] || c in cands[1..];
    }
  }

  /** The loop raises exactly when the filter raises on some candidate. */
  lemma {:induction false} ScreenRaises(filter: Filter, cands: seq<Dict>)
    ensures Screen(filter, cands).Err? <==> exists c :: c in cands && Apply(filter, c).Raise?
  {
    if cands != [] {
      ScreenRaises(filter, cands[1..]);
      assert forall c :: c in cands <==> c == cands[0] || c in cands[1..];
    }
  }

  /** Appending one candidate extends the outcome by that candidate's verdict:
      the loop over the grid is a left-to-right fold. */
  lemma {:induction false} ScreenSnoc(filter: Filter, cands: seq<Dict>, c: Dict)
    requires Screen(filter, cands).Ok?
    ensures Screen(filter, cands + [c]) ==
      match Apply(filter, c)
      case Raise(e) => Err(e)
      case Reject => Screen(filter, cands)
      case Accept(d) => Ok(Screen(filter, cands).value + [d])
  {
    if cands == [] {
      assert cands + [c] == [c];
      match Apply(filter, c) {
        case Raise(e) =>
        case Reject =>
        case Accept(d) =>
          assert [c][1..] == [];
          assert [d] + [] == [d];
          assert Screen(filter, cands).value + [d] == [d];
      }
    } else {
      assert (cands + [c])[1..] == cands[1..] + [c];
      assert (cands + [c])[0] == cands[0];
      ScreenSnoc(filter, cands[1..], c);
      match Apply(filter, cands[0]) {
        case Raise(e) =>
        case Reject =>
        case Accept(d) =>
          var tail := Screen(filter, cands[1..]).value;
          match Apply(filter, c) {
            case Raise(e) =>
            case Reject =>
            case Accept(d') => assert [d] + (tail + [d']) == ([d] + tail) + [d'];
          }
      }
    }
  }

  /** One more candidate of a list, screened after the ones before it; an
      exception there is the outcome of screening the whole list. */
  lemma ScreenStep(filter: Filter, cands: seq<Dict>, i: nat)
    requires i < |cands| && Screen(filter, cands[..i]).Ok?
    ensures Screen(filter, cands[..i + 1]) ==
      match Apply(filter, cands[i])
      case Raise(e) => Err(e)
      case Reject => Screen(filter, cands[..i])
      case Accept(d) => Ok(Screen(filter, cands[..i]).value + [d])
    ensures Apply(filter, cands[i]).Raise? ==> Screen(filter, cands) == Err(Apply(filter, cands[i]).error)
  {
    assert cands[..i + 1] == cands[..i] + [cands[i]];
    ScreenSnoc(filter, cands[..i], cands[i]);
    if Apply(filter, cands[i]).Raise? {
      ScreenAppend(filter, cands[..i + 1], cands[i + 1..]);
      assert cands[..i + 1] + cands[i + 1..] == cands;
    }
  }

  /** The loop over two stretches of candidates is the loop over the first
      followed by the loop over the second: an exception in the first ends
      it, one in the second ends it after the first stretch's sets. */
  lemma {:induction false} ScreenAppend(filter: Filter, a: seq<Dict>, b: seq<Dict>)
    ensures Screen(filter, a + b) ==
      if Screen(filter, a).Err? then Screen(filter, a)
      else if Screen(filter, b).Err? then Screen(filter, b)
      else Ok(Screen(filter, a).value + Screen(filter, b).value)
  {
    if a == [] {
      assert a + b == b;
      if Screen(filter, b).Ok? {
        assert [] + Screen(filter, b).value == Screen(filter, b).value;
      }
    } else {
      assert (a + b)[0] == a[0];
      assert (a + b)[1..] == a[1..] + b;
      ScreenAppend(filter, a[1..], b);
      match Apply(filter, a[0]) {
        case Raise(e) =>
        case Reject =>
        case Accept(d) =>
          var x, y := Screen(filter, a[1..]), Screen(filter, b);
          if x.Ok? && y.Ok? {
            assert [d] + (x.value + y.value) == ([d] + x.value) + y.value;
          }
      }
    }
  }

  // ---------------------------------------------------------------------
  // Random mode: the predefined samplers.

  /** The sampler attached to a parameter by `create_generator_random_parameter`. */
  datatype Sampler = Given(f: real -> Value) | Uniform(low: Option<real>, high: Option<real>) | RandInt(low: Option<real>, high: Option<real>)

  /** A `sampling_fct` given by the descriptor wins; otherwise the
      `sampling_type` picks one; anything else raises. */
  function SamplerFor(p: ParamRange): (r: Result<Sampler>)
    ensures p.samplingFct.Some? ==> r == Ok(Given(p.samplingFct.value))
    ensures r.Err? <==> p.samplingFct.None? && (p.samplingType.None? || p.samplingType.value !in {"uniform", "randint"})
  {
    if p.samplingFct.Some? then Ok(Given(p.samplingFct.value))
    else if p.samplingType.None? then Err("KeyError")
    else if p.samplingType.value == "uniform" then Ok(Uniform(p.low, p.high))
    else if p.samplingType.value == "randint" then Ok(RandInt(p.low, p.high))
    else Err("ValueError")
  }

  /** The loop over all parameters: the first failing one raises. */
  function Samplers(ranges: Ranges): (r: Result<seq<(string, Sampler)>>)
    ensures r.Ok? <==> forall i :: 0 <= i < |ranges| ==> SamplerFor(ranges[i].1).Ok?
    ensures r.Ok? ==> |r.value| == |ranges| && forall i :: 0 <= i < |ranges| ==>
              r.value[i] == (ranges[i].0, SamplerFor(ranges[i].1).value)
  {
    if ranges == [] then Ok([])
    else
      var head := SamplerFor(ranges[0].1);
      var tail := Samplers(ranges[1..]);
      assert forall i :: 1 <= i < |ranges| ==> ranges[i] == ranges[1..][i - 1];
      if head.Err? then Err(head.error)
      else if tail.Err? then tail
      else Ok([(ranges[0].0, head.value)] + tail.value)
  }

  /** One draw of a sampler, given the uniform draw `u` in [0, 1) it consumes.
      `uniform` is `low + u*(high - low)`; `randint(low, high)` picks an integer
      in [low, high) and raises when that interval is empty; a missing bound
      is a `KeyError`. */
  function Sample(s: Sampler, u: real): Result<Value>
  {
    match s
    case Given(f) => Ok(f(u))
    case Uniform(lo, hi) =>
      if lo.None? || hi.None? then Err("KeyError")
      else Ok(RealV(lo.value + u * (hi.value - lo.value)))
    case RandInt(lo, hi) =>
      if lo.None? || hi.None? then Err("KeyError")
      else
        var a, b := Trunc(lo.value), Trunc(hi.value);
        if b <= a then Err("ValueError")
        else Ok(IntV(a + (u * (b - a) as real).Floor))
  }

  /** A fraction of a non-negative amount lies between zero and it. */
  lemma Fraction(u: real, n: real)
    requires 0.0 <= u < 1.0 && 0.0 <= n
    ensures 0.0 <= u * n <= n
    ensures 0.0 < n ==> u * n < n
  {
    assert (1.0 - u) * n >= 0.0;
    assert 0.0 < n ==> (1.0 - u) * n > 0.0;
  }

  /** `randint(low, high)` draws from [low, high): the high end is excluded. */
  lemma RandIntRange(lo: int, hi: int, u: real)
    requires 0.0 <= u < 1.0 && lo < hi
    ensures Sample(RandInt(Some(lo as real), Some(hi as real)), u).Ok?
    ensures Sample(RandInt(Some(lo as real), Some(hi as real)), u).value.IntV?
    ensures lo <= Sample(RandInt(Some(lo as real), Some(hi as real)), u).value.i < hi
  {
    RandIntDraw(lo, hi, u);
    var x := u * (hi - lo) as real;
    Fraction(u, (hi - lo) as real);
    FloorBelow(x, hi - lo);
  }

  /** With whole bounds, `randint` is the low bound plus the whole part of
      the drawn fraction of the width. */
  lemma RandIntDraw(lo: int, hi: int, u: real)
    requires lo < hi
    ensures Sample(RandInt(Some(lo as real), Some(hi as real)), u) == Ok(IntV(lo + (u * (hi - lo) as real).Floor))
  {
    TruncWhole(lo);
    TruncWhole(hi);
  }

  /** Truncating a whole number gives it back. */
  lemma TruncWhole(n: int)
    ensures Trunc(n as real) == n
  {
  }

  /** The whole part of a number in [0, n) lies in [0, n). */
  lemma FloorBelow(x: real, n: int)
    requires 0.0 <= x < n as real
    ensures 0 <= x.Floor < n
  {
  }

  /** A uniform draw lies between the bounds. */
  lemma UniformRange(lo: real, hi: real, u: real)
    requires 0.0 <= u < 1.0 && lo <= hi
    ensures Sample(Uniform(Some(lo), Some(hi)), u).Ok?
    ensures Sample(Uniform(Some(lo), Some(hi)), u).value.RealV?
    ensures lo <= Sample(Uniform(Some(lo), Some(hi)), u).value.r <= hi
  {
    var n := hi - lo;
    var x := u * n;
    Fraction(u, n);
    assert 0.0 <= x <= n;
    var r := Sample(Uniform(Some(lo), Some(hi)), u).value.r;
    assert r == lo + x;
    assert lo <= r <= lo + n;
  }

  /** One fresh parameter set: each parameter, in order, sampled from its own
      draw. */
  function SampleAll(samplers: seq<(string, Sampler)>, draws: seq<real>): (r: Result<Dict>)
    requires |draws| == |samplers|
    ensures r.Ok? ==> Keys(r.value) == seq(|samplers|, i requires 0 <= i < |samplers| => samplers[i].0)
  {
    if samplers == [] then Ok([])
    else
      var head := Sample(samplers[0].1, draws[0]);
      var tail := SampleAll(samplers[1..], draws[1..]);
      if head.Err? then Err(head.error)
      else if tail.Err? then tail
      else
        var r := [(samplers[0].0, head.value)] + tail.value;
        assert Keys(r) == [samplers[0].0] + Keys(tail.value);
        Ok(r)
  }

  /** Entry `i` of a fresh parameter set is parameter `i` sampled from draw `i`. */
  lemma {:induction false} SampleAllEntry(samplers: seq<(string, Sampler)>, draws: seq<real>, i: nat)
    requires |draws| == |samplers| && i < |samplers|
    requires SampleAll(samplers, draws).Ok?
    ensures Sample(samplers[i].1, draws[i]).Ok?
    ensures |SampleAll(samplers, draws).value| == |samplers|
    ensures SampleAll(samplers, draws).value[i] == (samplers[i].0, Sample(samplers[i].1, draws[i]).value)
  {
    if i > 0 {
      SampleAllEntry(samplers[1..], draws[1..], i - 1);
    }
  }

  /** A parameter set that one round of sampling can produce. */
  ghost predicate Drawn(samplers: seq<(string, Sampler)>, d: Dict)
  {
    exists u: seq<real> :: |u| == |samplers| && (forall k :: 0 <= k < |u| ==> 0.0 <= u[k] < 1.0) &&
      SampleAll(samplers, u) == Ok(d)
  }

  /** A parameter set the random generators can return: the filter's answer
      on a drawn set. */
  ghost predicate Sampled(samplers: seq<(string, Sampler)>, filter: Filter, x: Dict)
  {
    exists d :: Drawn(samplers, d) && Apply(filter, d) == Accept(x)
  }
}
