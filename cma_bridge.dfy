/** The pure half of the CMA-ES bridge: the parameter order (names sorted),
    the `x0`/`scaling` defaults, the options handed to the optimiser,
    the conversions between candidate arrays and parameter dictionaries, the
    bounds check of a batch of candidates, and the replacement of NaN fitness
    values. The optimisation loop itself is `SubmitPbsEngine.SubmitPbs.PerformCmaEsOptimization`. */
module CmaBridge {
  import opened Common
  import opened ParameterSpace

  // ---------------------------------------------------------------------
  // `sorted(dict_parameters_range.keys())`

  /** Python's string order: lexicographic on characters. */
  predicate LexLe(a: string, b: string)
    decreases |a|
  {
    a == [] || (b != [] && (a[0] < b[0] || (a[0] == b[0] && LexLe(a[1..], b[1..]))))
  }

  lemma {:induction false} LexTotal(a: string, b: string)
    ensures LexLe(a, b) || LexLe(b, a)
    decreases |a|
  {
    if a != [] && b != [] && a[0] == b[0] {
      LexTotal(a[1..], b[1..]);
    }
  }

  predicate SortedNames(s: seq<string>)
  {
    forall i, j :: 0 <= i < j < |s| ==> LexLe(s[i], s[j])
  }

  function Insert(x: string, s: seq<string>): (r: seq<string>)
    requires SortedNames(s)
    ensures SortedNames(r)
    ensures multiset(r) == multiset(s) + multiset{x}
  {
    if s == [] then [x]
    else if LexLe(x, s[0]) then
      InsertFront(x, s);
      [x] + s
    else
      var tail := Insert(x, s[1..]);
      InsertBehind(x, s, tail);
      [s[0]] + tail
  }

  /** A name not above the head goes in front. */
  lemma InsertFront(x: string, s: seq<string>)
    requires s != [] && SortedNames(s) && LexLe(x, s[0])
    ensures SortedNames([x] + s)
  {
    var r := [x] + s;
    forall i, j | 0 <= i < j < |r| ensures LexLe(r[i], r[j]) {
      if i == 0 && j > 1 {
        LexTrans(x, s[0], r[j]);
      }
    }
  }

  /** A name above the head goes into the tail, which then follows the head. */
  lemma InsertBehind(x: string, s: seq<string>, tail: seq<string>)
    requires s != [] && SortedNames(s) && !LexLe(x, s[0])
    requires SortedNames(tail) && multiset(tail) == multiset(s[1..]) + multiset{x}
    ensures SortedNames([s[0]] + tail)
    ensures multiset([s[0]] + tail) == multiset(s) + multiset{x}
  {
    LexTotal(x, s[0]);
    assert s == [s[0]] + s[1..];
    forall j | 0 <= j < |tail| ensures LexLe(s[0], tail[j]) {
      assert tail[j] in multiset(tail);
      if tail[j] != x {
        assert tail[j] in multiset(s[1..]);
        var k :| 0 <= k < |s[1..]| && s[1..][k] == tail[j];
        assert s[k + 1] == tail[j];
      }
    }
    var r := [s[0]] + tail;
    forall i, j | 0 <= i < j < |r| ensures LexLe(r[i], r[j]) {
      if i > 0 {
        assert r[i] == tail[i - 1] && r[j] == tail[j - 1];
      }
    }
  }

  lemma {:induction false} LexTrans(a: string, b: string, c: string)
    requires LexLe(a, b) && LexLe(b, c)
    ensures LexLe(a, c)
    decreases |a|
  {
    if a != [] && b != [] && c != [] && a[0] == b[0] && b[0] == c[0] {
      LexTrans(a[1..], b[1..], c[1..]);
    }
  }

  /** `sorted(names)`: the same names, in ascending order. */
  function SortNames(names: seq<string>): (r: seq<string>)
    ensures SortedNames(r)
    ensures multiset(r) == multiset(names)
  {
    if names == [] then []
    else
      assert names == [names[0]] + names[1..];
      Insert(names[0], SortNames(names[1..]))
  }

  // ---------------------------------------------------------------------
  // Defaults and options.

  /** The entry of a parameter, if the range dictionary has one. */
  function RangeOf(ranges: Ranges, name: string): (r: Option<ParamRange>)
    ensures r.Some? ==> exists i :: 0 <= i < |ranges| && ranges[i] == (name, r.value)
    ensures r.None? ==> forall i :: 0 <= i < |ranges| ==> ranges[i].0 != name
  {
    if ranges == [] then None
    else if ranges[0].0 == name then Some(ranges[0].1)
    else
      var r := RangeOf(ranges[1..], name);
      assert forall i :: 1 <= i < |ranges| ==> ranges[i] == ranges[1..][i - 1];
      r
  }

  /** One parameter's `x0` and `scaling`, filled in from `low`/`high` when
      missing: `x0 = (high - low)/2` and `scaling = (high - low)/(3 sigma0)`.
      With neither pair the descriptor is refused (`ValueError`); a zero
      `sigma0` is a float division by zero. */
  function WithDefaults(p: ParamRange, sigma0: real): (r: Result<ParamRange>)
    ensures r.Ok? ==> r.value.x0.Some? && r.value.scaling.Some?
    ensures r.Ok? ==> r.value.(x0 := p.x0, scaling := p.scaling) == p
    ensures r.Ok? && p.x0.None? ==>
              p.low.Some? && p.high.Some? && r.value.x0 == Some((p.high.value - p.low.value) / 2.0)
    ensures r.Ok? && p.scaling.None? ==>
              p.low.Some? && p.high.Some? && sigma0 != 0.0 &&
              r.value.scaling == Some((p.high.value - p.low.value) / (3.0 * sigma0))
    ensures r.Ok? && p.x0.Some? ==> r.value.x0 == p.x0
    ensures r.Ok? && p.scaling.Some? ==> r.value.scaling == p.scaling
    ensures p.x0.Some? && p.scaling.Some? ==> r == Ok(p)
    ensures r.Err? <==> (p.x0.None? || p.scaling.None?) &&
                        (p.low.None? || p.high.None? || (p.scaling.None? && sigma0 == 0.0))
  {
    if p.x0.Some? && p.scaling.Some? then Ok(p)
    else if p.low.None? || p.high.None? then Err("ValueError")
    else
      var width := p.high.value - p.low.value;
      var x0 := if p.x0.None? then Some(width / 2.0) else p.x0;
      if p.scaling.None? && sigma0 == 0.0 then Err("ZeroDivisionError")
      else
        var scaling := if p.scaling.None? then Some(width / (3.0 * sigma0)) else p.scaling;
        Ok(p.(x0 := x0, scaling := scaling))
  }

  /** The defaulted `x0` is half the width of the range, not its midpoint:
      the two agree exactly when `low` is zero. */
  lemma DefaultX0NotMidpoint(p: ParamRange, sigma0: real)
    requires p.x0.None? && p.low.Some? && p.high.Some? && (p.scaling.Some? || sigma0 != 0.0)
    ensures WithDefaults(p, sigma0).Ok?
    ensures WithDefaults(p, sigma0).value.x0.value == (p.low.value + p.high.value) / 2.0
            <==> p.low.value == 0.0
  {
  }

  /** With the defaulted scaling, `3 sigma0 scaling` (the reach CMA-ES gives
      the parameter around `x0`) is exactly the width of the range. */
  lemma DefaultScalingReach(p: ParamRange, sigma0: real)
    requires p.scaling.None? && p.low.Some? && p.high.Some? && sigma0 != 0.0
    ensures WithDefaults(p, sigma0).Ok?
    ensures 3.0 * sigma0 * WithDefaults(p, sigma0).value.scaling.value == p.high.value - p.low.value
  {
  }

  /** The entry of `name` replaced by `p` in place: the dictionary keeps
      its keys and their order. */
  function SetRange(ranges: Ranges, name: string, p: ParamRange): (r: Ranges)
    ensures |r| == |ranges| && forall i :: 0 <= i < |ranges| ==> r[i].0 == ranges[i].0
    ensures RangeOf(ranges, name).Some? ==> RangeOf(r, name) == Some(p)
    ensures RangeOf(ranges, name).None? ==> r == ranges
    ensures forall n :: n != name ==> RangeOf(r, n) == RangeOf(ranges, n)
  {
    if ranges == [] then []
    else if ranges[0].0 == name then [(name, p)] + ranges[1..]
    else [ranges[0]] + SetRange(ranges[1..], name, p)
  }

  /** What the loop makes of the entry of `name`: `dict_parameters_range[name]`
      (a `KeyError` when absent) with its defaults filled in. */
  function Defaulted(ranges: Ranges, name: string, sigma0: real): Result<ParamRange>
  {
    match RangeOf(ranges, name)
    case None => Err("KeyError")
    case Some(p) => WithDefaults(p, sigma0)
  }

  /** Writing back one defaulted entry changes what the loop makes of no
      entry: a defaulted entry is its own default. */
  lemma DefaultedStable(ranges: Ranges, name: string, sigma0: real, n: string)
    requires Defaulted(ranges, name, sigma0).Ok?
    ensures Defaulted(SetRange(ranges, name, Defaulted(ranges, name, sigma0).value), n, sigma0) ==
            Defaulted(ranges, n, sigma0)
  {
  }

  /** The defaulting loop over `names`, in order: each entry is defaulted in
      place, and the first name whose entry is refused raises its error. */
  function DefaultAll(ranges: Ranges, names: seq<string>, sigma0: real): (r: Result<Ranges>)
    ensures r.Ok? <==> forall k :: 0 <= k < |names| ==> Defaulted(ranges, names[k], sigma0).Ok?
    ensures r.Err? ==> exists k :: 0 <= k < |names| && Defaulted(ranges, names[k], sigma0) == Err(r.error) &&
                                   forall j :: 0 <= j < k ==> Defaulted(ranges, names[j], sigma0).Ok?
    ensures r.Ok? ==> |r.value| == |ranges| && forall i :: 0 <= i < |ranges| ==> r.value[i].0 == ranges[i].0
    ensures r.Ok? ==> forall k :: 0 <= k < |names| ==>
              RangeOf(r.value, names[k]) == Some(Defaulted(ranges, names[k], sigma0).value)
    ensures r.Ok? ==> forall n :: n !in names ==> RangeOf(r.value, n) == RangeOf(ranges, n)
    decreases |names|
  {
    if names == [] then Ok(ranges)
    else
      var head := Defaulted(ranges, names[0], sigma0);
      if head.Err? then Err(head.error)
      else
        var next := SetRange(ranges, names[0], head.value);
        var r := DefaultAll(next, names[1..], sigma0);
        DefaultAllStep(ranges, names, sigma0, r);
        r
  }

  /** The loop after its first name is the loop over the rest on the
      written-back dictionary, with the same outcome for every entry. */
  lemma DefaultAllStep(ranges: Ranges, names: seq<string>, sigma0: real, r: Result<Ranges>)
    requires names != [] && Defaulted(ranges, names[0], sigma0).Ok?
    requires var next := SetRange(ranges, names[0], Defaulted(ranges, names[0], sigma0).value);
             (r.Ok? <==> forall k :: 0 <= k < |names| - 1 ==> Defaulted(next, names[1..][k], sigma0).Ok?) &&
             (r.Err? ==> exists k :: 0 <= k < |names| - 1 && Defaulted(next, names[1..][k], sigma0) == Err(r.error) &&
                                     forall j :: 0 <= j < k ==> Defaulted(next, names[1..][j], sigma0).Ok?) &&
             (r.Ok? ==> |r.value| == |next| && forall i :: 0 <= i < |next| ==> r.value[i].0 == next[i].0) &&
             (r.Ok? ==> forall k :: 0 <= k < |names| - 1 ==>
                          RangeOf(r.value, names[1..][k]) == Some(Defaulted(next, names[1..][k], sigma0).value)) &&
             (r.Ok? ==> forall n :: n !in names[1..] ==> RangeOf(r.value, n) == RangeOf(next, n))
    ensures r.Ok? <==> forall k :: 0 <= k < |names| ==> Defaulted(ranges, names[k], sigma0).Ok?
    ensures r.Err? ==> exists k :: 0 <= k < |names| && Defaulted(ranges, names[k], sigma0) == Err(r.error) &&
                                   forall j :: 0 <= j < k ==> Defaulted(ranges, names[j], sigma0).Ok?
    ensures r.Ok? ==> |r.value| == |ranges| && forall i :: 0 <= i < |ranges| ==> r.value[i].0 == ranges[i].0
    ensures r.Ok? ==> forall k :: 0 <= k < |names| ==>
              RangeOf(r.value, names[k]) == Some(Defaulted(ranges, names[k], sigma0).value)
    ensures r.Ok? ==> forall n :: n !in names ==> RangeOf(r.value, n) == RangeOf(ranges, n)
  {
    var q := Defaulted(ranges, names[0], sigma0).value;
    var next := SetRange(ranges, names[0], q);
    forall k | 0 <= k < |names| - 1
      ensures Defaulted(next, names[1..][k], sigma0) == Defaulted(ranges, names[k + 1], sigma0)
    {
      DefaultedStable(ranges, names[0], sigma0, names[k + 1]);
    }
    if r.Err? {
      var k :| 0 <= k < |names| - 1 && Defaulted(next, names[1..][k], sigma0) == Err(r.error) &&
               forall j :: 0 <= j < k ==> Defaulted(next, names[1..][j], sigma0).Ok?;
      assert Defaulted(ranges, names[k + 1], sigma0) == Err(r.error);
      forall j | 0 <= j < k + 1 ensures Defaulted(ranges, names[j], sigma0).Ok? {
        if j > 0 {
          assert Defaulted(next, names[1..][j - 1], sigma0).Ok?;
        }
      }
    } else {
      forall k | 0 <= k < |names| ensures Defaulted(ranges, names[k], sigma0).Ok? {
        if k > 0 {
          assert Defaulted(next, names[1..][k - 1], sigma0).Ok?;
        }
      }
      forall k | 0 <= k < |names|
        ensures RangeOf(r.value, names[k]) == Some(Defaulted(ranges, names[k], sigma0).value)
      {
        if k > 0 {
          assert RangeOf(r.value, names[1..][k - 1]) == Some(Defaulted(next, names[1..][k - 1], sigma0).value);
        } else if names[0] in names[1..] {
          var m :| 0 <= m < |names| - 1 && names[1..][m] == names[0];
          assert RangeOf(r.value, names[1..][m]) == Some(Defaulted(next, names[1..][m], sigma0).value);
        } else {
          assert RangeOf(r.value, names[0]) == RangeOf(next, names[0]);
        }
      }
      forall n | n !in names ensures RangeOf(r.value, n) == RangeOf(ranges, n) {
        assert n !in names[1..] && n != names[0];
      }
    }
  }

  /** The keys of the range dictionary, in its order. */
  function RangeNames(ranges: Ranges): (r: seq<string>)
    ensures |r| == |ranges|
    ensures forall i :: 0 <= i < |ranges| ==> r[i] == ranges[i].0
  {
    seq(|ranges|, i requires 0 <= i < |ranges| => ranges[i].0)
  }

  /** The dtypes, in name order. */
  function Dtypes(ranges: Ranges, names: seq<string>): (r: Result<seq<Dtype>>)
    ensures r.Ok? <==> forall k :: 0 <= k < |names| ==> RangeOf(ranges, names[k]).Some?
    ensures r.Ok? ==> |r.value| == |names| && forall k :: 0 <= k < |names| ==>
              r.value[k] == RangeOf(ranges, names[k]).value.dtype
  {
    if names == [] then Ok([])
    else
      var p := RangeOf(ranges, names[0]);
      var tail := Dtypes(ranges, names[1..]);
      assert forall k :: 1 <= k < |names| ==> names[k] == names[1..][k - 1];
      if p.None? then Err("KeyError")
      else if tail.Err? then tail
      else Ok([p.value.dtype] + tail.value)
  }

  /** `cma_init_parameters`: each parameter's `x0` converted by its dtype, in
      name order. */
  function InitialPoint(ranges: Ranges, names: seq<string>): (r: Result<seq<Value>>)
    ensures r.Ok? <==> forall k :: 0 <= k < |names| ==>
              RangeOf(ranges, names[k]).Some? && RangeOf(ranges, names[k]).value.x0.Some?
    ensures r.Ok? ==> |r.value| == |names| && forall k :: 0 <= k < |names| ==>
              r.value[k] == Convert(RangeOf(ranges, names[k]).value.dtype, RangeOf(ranges, names[k]).value.x0.value)
  {
    if names == [] then Ok([])
    else
      var p := RangeOf(ranges, names[0]);
      var tail := InitialPoint(ranges, names[1..]);
      assert forall k :: 1 <= k < |names| ==> names[k] == names[1..][k - 1];
      if p.None? || p.value.x0.None? then Err("KeyError")
      else if tail.Err? then tail
      else Ok([Convert(p.value.dtype, p.value.x0.value)] + tail.value)
  }

  /** `cma_population_size`: absent, `'auto_10x'` or a number. */
  datatype PopsizeSetting = NoPopsize | Auto10x | FixedPopsize(n: int)

  function Popsize(setting: PopsizeSetting, numParams: nat): (r: Option<int>)
    ensures setting == Auto10x ==> r == Some(10 * numParams)
    ensures setting.FixedPopsize? ==> r == Some(setting.n)
    ensures r.None? <==> setting == NoPopsize
  {
    match setting
    case NoPopsize => None
    case Auto10x => Some(10 * numParams)
    case FixedPopsize(n) => Some(n)
  }

  /** numpy's `allclose(a, b)` on one pair (default tolerances). */
  predicate Close(a: real, b: real)
  {
    var d := if a >= b then a - b else b - a;
    var m := if b >= 0.0 then b else -b;
    d <= 0.00000001 + 0.00001 * m
  }

  predicate AllOnes(xs: seq<real>)
  {
    forall i :: 0 <= i < |xs| ==> Close(xs[i], 1.0)
  }

  /** The options the bridge sets on the optimiser. */
  datatype CmaOptions = CmaOptions(popsize: Option<int>, stds: Option<seq<real>>, bounds: Option<(seq<real>, seq<real>)>)

  /** The scalings, in name order (the entries must already be defaulted). */
  function Scalings(ranges: Ranges, names: seq<string>): (r: Result<seq<real>>)
    ensures r.Ok? ==> |r.value| == |names|
    ensures r.Ok? <==> forall k :: 0 <= k < |names| ==>
              RangeOf(ranges, names[k]).Some? && RangeOf(ranges, names[k]).value.scaling.Some?
    ensures r.Ok? ==> forall k :: 0 <= k < |names| ==> Some(r.value[k]) == RangeOf(ranges, names[k]).value.scaling
  {
    if names == [] then Ok([])
    else
      var p := RangeOf(ranges, names[0]);
      var tail := Scalings(ranges, names[1..]);
      assert forall k :: 1 <= k < |names| ==> names[k] == names[1..][k - 1];
      if p.None? || p.value.scaling.None? then Err("KeyError")
      else if tail.Err? then tail
      else Ok([p.value.scaling.value] + tail.value)
  }

  /** `low` (or `high`) of every parameter in name order; `KeyError` when one
      is missing. */
  function Bounds(ranges: Ranges, names: seq<string>, upper: bool): (r: Result<seq<real>>)
    ensures r.Ok? ==> |r.value| == |names|
    ensures r.Ok? ==> forall k :: 0 <= k < |names| ==> RangeOf(ranges, names[k]).Some?
    ensures r.Ok? && upper ==> forall k :: 0 <= k < |names| ==>
              RangeOf(ranges, names[k]).value.high == Some(r.value[k])
    ensures r.Ok? && !upper ==> forall k :: 0 <= k < |names| ==>
              RangeOf(ranges, names[k]).value.low == Some(r.value[k])
  {
    if names == [] then Ok([])
    else
      var p := RangeOf(ranges, names[0]);
      var tail := Bounds(ranges, names[1..], upper);
      assert forall k :: 1 <= k < |names| ==> names[k] == names[1..][k - 1];
      if p.None? then Err("KeyError")
      else
        var b := if upper then p.value.high else p.value.low;
        if b.None? then Err("KeyError")
        else if tail.Err? then tail
        else Ok([b.value] + tail.value)
  }

  /** The options: a population size when one is asked for, the scalings as
      per-parameter deviations when auto-scaling is on and they are not all
      (close to) one, and the bounds when they are to be used. */
  function Options(popsize: PopsizeSetting, scalings: seq<real>, autoScaling: bool,
                   bounds: Option<(seq<real>, seq<real>)>, numParams: nat): (o: CmaOptions)
    ensures o.popsize == Popsize(popsize, numParams)
    ensures o.stds.Some? <==> autoScaling && !AllOnes(scalings)
    ensures o.stds.Some? ==> o.stds.value == scalings
    ensures o.bounds == bounds
  {
    CmaOptions(Popsize(popsize, numParams),
               if autoScaling && !AllOnes(scalings) then Some(scalings) else None,
               bounds)
  }

  // ---------------------------------------------------------------------
  // Conversions between candidate arrays and parameter dictionaries.

  /** `cma_parameters_array_to_dict`: the i-th coordinate under the i-th name,
      converted by that parameter's dtype. */
  function ArrayToDict(arr: seq<real>, names: seq<string>, dtypes: seq<Dtype>): (d: Dict)
    requires |arr| == |names| == |dtypes|
    ensures |d| == |names|
    ensures forall i :: 0 <= i < |names| ==> d[i] == (names[i], Convert(dtypes[i], arr[i]))
  {
    if names == [] then [] else [(names[0], Convert(dtypes[0], arr[0]))] + ArrayToDict(arr[1..], names[1..], dtypes[1..])
  }

  /** `cma_parameters_dict_to_array`: the values in name order; a missing
      name is a `KeyError`. */
  function DictToArray(d: Dict, names: seq<string>): (r: Result<seq<Value>>)
    ensures r.Ok? <==> forall k :: 0 <= k < |names| ==> Lookup(d, names[k]).Some?
    ensures r.Ok? ==> |r.value| == |names|
    ensures r.Ok? ==> forall k :: 0 <= k < |names| ==> Lookup(d, names[k]) == Some(r.value[k])
  {
    if names == [] then Ok([])
    else
      var v := Lookup(d, names[0]);
      var tail := DictToArray(d, names[1..]);
      assert forall k :: 1 <= k < |names| ==> names[k] == names[1..][k - 1];
      if v.None? then Err("KeyError")
      else if tail.Err? then tail
      else Ok([v.value] + tail.value)
  }

  /** Array to dictionary and back gives the converted array: with distinct
      names no coordinate is lost. */
  lemma RoundTrip(arr: seq<real>, names: seq<string>, dtypes: seq<Dtype>)
    requires |arr| == |names| == |dtypes| && Distinct(names)
    ensures DictToArray(ArrayToDict(arr, names, dtypes), names)
            == Ok(seq(|names|, i requires 0 <= i < |names| => Convert(dtypes[i], arr[i])))
  {
    var d := ArrayToDict(arr, names, dtypes);
    var want := seq(|names|, i requires 0 <= i < |names| => Convert(dtypes[i], arr[i]));
    forall k | 0 <= k < |names| ensures Lookup(d, names[k]) == Some(want[k]) {
      LookupDistinct(d, k);
    }
    var r := DictToArray(d, names);
    assert r.Ok?;
    assert forall k :: 0 <= k < |names| ==> Some(r.value[k]) == Some(want[k]);
    assert r.value == want;
  }

  lemma {:induction false} LookupDistinct(d: Dict, k: nat)
    requires k < |d| && UniqueKeys(d)
    ensures Lookup(d, d[k].0) == Some(d[k].1)
  {
    if k > 0 {
      assert UniqueKeys(d[1..]);
      LookupDistinct(d[1..], k - 1);
    }
  }

  /** The candidate arrays of a batch as parameter dictionaries. */
  function Dicts(cands: seq<seq<real>>, names: seq<string>, dtypes: seq<Dtype>): (r: seq<Dict>)
    requires |names| == |dtypes|
    requires forall c :: c in cands ==> |c| == |names|
    ensures |r| == |cands|
    ensures forall i :: 0 <= i < |cands| ==> r[i] == ArrayToDict(cands[i], names, dtypes)
  {
    seq(|cands|, i requires 0 <= i < |cands| => ArrayToDict(cands[i], names, dtypes))
  }

  // ---------------------------------------------------------------------
  // The bounds check.

  /** Whether one value lies outside [low, high]; non-numbers are refused.
      The test against `low` comes first and, when it holds, `high` is never
      read, so a missing `high` is a `KeyError` only for a value at or above
      `low`. */
  function OutOfBounds(v: Value, low: real, high: Option<real>): (r: Result<bool>)
    ensures NumberOf(v).Some? && NumberOf(v).value < low ==> r == Ok(true)
    ensures r == Ok(false) <==> NumberOf(v).Some? && high.Some? && low <= NumberOf(v).value <= high.value
  {
    match NumberOf(v)
    case None => Err("TypeError")
    case Some(x) =>
      if x < low then Ok(true)
      else if high.None? then Err("KeyError")
      else Ok(x > high.value)
  }

  /** The inner loop: index `i` once for every name whose value is out of
      bounds. */
  function CheckOne(i: nat, cand: Dict, names: seq<string>, ranges: Ranges): (r: Result<seq<int>>)
    ensures r.Ok? ==> forall x :: x in r.value ==> x == i
  {
    if names == [] then Ok([])
    else
      var v := Lookup(cand, names[0]);
      var p := RangeOf(ranges, names[0]);
      if v.None? || p.None? || p.value.low.None? then Err("KeyError")
      else
        var out := OutOfBounds(v.value, p.value.low.value, p.value.high);
        var tail := CheckOne(i, cand, names[1..], ranges);
        if out.Err? then Err(out.error)
        else if tail.Err? then tail
        else if out.value then Ok([i] + tail.value)
        else tail
  }

  /** The outer loop of `check_parameters_candidate`: for every candidate in
      order, what the inner loop `check(i, cand)` reports for it at index `i`. */
  function CheckEach(check: (nat, Dict) -> Result<seq<int>>, cands: seq<Dict>, from: nat): Result<seq<int>>
    decreases |cands|
  {
    if cands == [] then Ok([])
    else
      var head := check(from, cands[0]);
      var tail := CheckEach(check, cands[1..], from + 1);
      if head.Err? then head
      else if tail.Err? then tail
      else Ok(head.value + tail.value)
  }

  /** The inner loop over the sorted names. */
  function Inner(names: seq<string>, ranges: Ranges): (nat, Dict) -> Result<seq<int>>
  {
    (i: nat, c: Dict) => CheckOne(i, c, names, ranges)
  }

  /** `check_parameters_candidate`: for every candidate in order, its index
      once per violated parameter. */
  function CheckCandidates(cands: seq<Dict>, names: seq<string>, ranges: Ranges, from: nat): Result<seq<int>>
  {
    CheckEach(Inner(names, ranges), cands, from)
  }

  /** The candidate's value for `name` lies in [low, high]. */
  predicate NameInBounds(cand: Dict, name: string, ranges: Ranges)
  {
    Lookup(cand, name).Some? && RangeOf(ranges, name).Some? && RangeOf(ranges, name).value.low.Some? &&
    OutOfBounds(Lookup(cand, name).value, RangeOf(ranges, name).value.low.value,
                RangeOf(ranges, name).value.high) == Ok(false)
  }

  /** A candidate is in bounds when every named value lies in [low, high]. */
  predicate InBounds(cand: Dict, names: seq<string>, ranges: Ranges)
  {
    forall k :: 0 <= k < |names| ==> NameInBounds(cand, names[k], ranges)
  }

  /** How many names a candidate violates. */
  function Violations(cand: Dict, names: seq<string>, ranges: Ranges): nat
  {
    if names == [] then 0
    else
      var v := Lookup(cand, names[0]);
      var p := RangeOf(ranges, names[0]);
      (if v.Some? && p.Some? && p.value.low.Some? &&
          OutOfBounds(v.value, p.value.low.value, p.value.high) == Ok(true) then 1 else 0)
      + Violations(cand, names[1..], ranges)
  }

  /** The inner loop reports the candidate once per violated name, and
      nothing exactly when the candidate is in bounds. */
  lemma {:induction false} CheckOneCount(i: nat, cand: Dict, names: seq<string>, ranges: Ranges)
    requires CheckOne(i, cand, names, ranges).Ok?
    ensures |CheckOne(i, cand, names, ranges).value| == Violations(cand, names, ranges)
    ensures CheckOne(i, cand, names, ranges).value == [] <==> InBounds(cand, names, ranges)
  {
    if names != [] {
      CheckOneCount(i, cand, names[1..], ranges);
      assert forall k :: 1 <= k < |names| ==> names[k] == names[1..][k - 1];
      if InBounds(cand, names[1..], ranges) && NameInBounds(cand, names[0], ranges) {
        forall k | 0 <= k < |names| ensures NameInBounds(cand, names[k], ranges) {
          if k > 0 {
            assert names[k] == names[1..][k - 1];
          }
        }
      }
    }
  }

  /** The inner loop checks its first name, then the rest. */
  lemma CheckOneCons(i: nat, cand: Dict, names: seq<string>, ranges: Ranges)
    requires names != []
    ensures CheckOne(i, cand, names, ranges).Ok? <==>
              CheckOne(i, cand, names[..1], ranges).Ok? && CheckOne(i, cand, names[1..], ranges).Ok?
    ensures CheckOne(i, cand, names, ranges).Ok? ==>
              CheckOne(i, cand, names, ranges).value ==
                CheckOne(i, cand, names[..1], ranges).value + CheckOne(i, cand, names[1..], ranges).value
  {
    assert names[..1][1..] == [];
  }

  /** A value below its `low` settles `(v < low) or (v > high)` before
      `high` is read: that name never makes the check fail, even without a
      `high`, and it flags the candidate. */
  lemma {:induction false} CheckOneBelowLow(i: nat, cand: Dict, names: seq<string>, ranges: Ranges, k: nat)
    requires k < |names|
    requires Lookup(cand, names[k]).Some? && NumberOf(Lookup(cand, names[k]).value).Some?
    requires RangeOf(ranges, names[k]).Some? && RangeOf(ranges, names[k]).value.low.Some?
    requires NumberOf(Lookup(cand, names[k]).value).value < RangeOf(ranges, names[k]).value.low.value
    ensures CheckOne(i, cand, names[..k], ranges).Ok? && CheckOne(i, cand, names[k + 1..], ranges).Ok? ==>
              CheckOne(i, cand, names, ranges).Ok?
    ensures CheckOne(i, cand, names, ranges).Ok? ==> i in CheckOne(i, cand, names, ranges).value
  {
    if k == 0 {
      CheckOneCons(i, cand, names, ranges);
      var one := names[..1];
      assert one[0] == names[k] && one[1..] == [];
      var v, p := Lookup(cand, names[k]).value, RangeOf(ranges, names[k]).value;
      assert OutOfBounds(v, p.low.value, p.high) == Ok(true);
      assert CheckOne(i, cand, one[1..], ranges) == Ok([]);
      assert [i] + [] == [i];
    } else {
      var rest := names[1..];
      assert rest[k - 1] == names[k];
      assert names[..k][..1] == names[..1] && names[..k][1..] == rest[..k - 1];
      assert names[k + 1..] == rest[k..];
      CheckOneCons(i, cand, names, ranges);
      CheckOneCons(i, cand, names[..k], ranges);
      CheckOneBelowLow(i, cand, rest, ranges, k - 1);
    }
  }

  // The outer loop, for any inner loop.

  /** Every inner loop reports only the index it was given. */
  ghost predicate OwnIndex(check: (nat, Dict) -> Result<seq<int>>)
  {
    forall i, c :: check(i, c).Ok? ==> forall y :: y in check(i, c).value ==> y == i
  }

  lemma EachStep(check: (nat, Dict) -> Result<seq<int>>, cands: seq<Dict>, from: nat)
    requires cands != [] && CheckEach(check, cands, from).Ok?
    ensures check(from, cands[0]).Ok? && CheckEach(check, cands[1..], from + 1).Ok?
    ensures CheckEach(check, cands, from).value ==
            check(from, cands[0]).value + CheckEach(check, cands[1..], from + 1).value
  {
  }

  /** Every reported index was reported by the inner loop over some candidate. */
  lemma {:induction false} EachAt(check: (nat, Dict) -> Result<seq<int>>, cands: seq<Dict>, from: nat, x: int)
    returns (j: nat)
    requires CheckEach(check, cands, from).Ok? && x in CheckEach(check, cands, from).value
    ensures j < |cands| && check(from + j, cands[j]).Ok? && x in check(from + j, cands[j]).value
    decreases |cands|
  {
    if cands != [] {
      EachStep(check, cands, from);
      if x in check(from, cands[0]).value {
        j := 0;
      } else {
        var k := EachAt(check, cands[1..], from + 1, x);
        j := k + 1;
        assert cands[1..][k] == cands[j];
      }
    }
  }

  /** The outer loop reports nothing exactly when every inner loop reports nothing. */
  lemma {:induction false} EachEmpty(check: (nat, Dict) -> Result<seq<int>>, cands: seq<Dict>, from: nat)
    requires CheckEach(check, cands, from).Ok?
    ensures CheckEach(check, cands, from).value == [] <==>
            forall j :: 0 <= j < |cands| ==> check(from + j, cands[j]) == Ok([])
    decreases |cands|
  {
    if cands != [] {
      EachStep(check, cands, from);
      EachEmpty(check, cands[1..], from + 1);
      assert forall j :: 0 <= j < |cands| - 1 ==> cands[1..][j] == cands[j + 1];
      if forall j :: 0 <= j < |cands| - 1 ==> check(from + 1 + j, cands[1..][j]) == Ok([]) {
        if check(from, cands[0]) == Ok([]) {
          forall j | 0 <= j < |cands| ensures check(from + j, cands[j]) == Ok([]) {
            if j > 0 {
              assert check(from + 1 + (j - 1), cands[1..][j - 1]) == Ok([]);
            }
          }
        }
      }
    }
  }

  /** With inner loops that report only their own index, index `from + j`
      occurs as often as the inner loop over candidate `j` reports it. */
  lemma {:induction false} EachCount(check: (nat, Dict) -> Result<seq<int>>, cands: seq<Dict>, from: nat, j: nat)
    requires CheckEach(check, cands, from).Ok? && OwnIndex(check) && j < |cands|
    ensures check(from + j, cands[j]).Ok?
    ensures multiset(CheckEach(check, cands, from).value)[from + j] == |check(from + j, cands[j]).value|
    decreases |cands|
  {
    EachStep(check, cands, from);
    var head := check(from, cands[0]).value;
    var tail := CheckEach(check, cands[1..], from + 1).value;
    if j == 0 {
      if from in tail {
        var k := EachAt(check, cands[1..], from + 1, from);
      }
      CountJoin(head, tail, from, from, 0);
    } else {
      EachCount(check, cands[1..], from + 1, j - 1);
      assert cands[1..][j - 1] == cands[j];
      CountJoin(head, tail, from, from + j, |check(from + j, cands[j]).value|);
    }
  }

  /** Inner loops that report nothing exactly on the candidates `ok`
      accepts, and as many entries as `count` says. */
  ghost predicate Describes(check: (nat, Dict) -> Result<seq<int>>, ok: Dict -> bool, count: Dict -> nat)
  {
    forall i, c :: check(i, c).Ok? ==>
      |check(i, c).value| == count(c) && (check(i, c).value == [] <==> ok(c))
  }

  lemma EachCountAll(check: (nat, Dict) -> Result<seq<int>>, cands: seq<Dict>, from: nat,
                     ok: Dict -> bool, count: Dict -> nat)
    requires CheckEach(check, cands, from).Ok? && OwnIndex(check) && Describes(check, ok, count)
    ensures forall j :: 0 <= j < |cands| ==>
              multiset(CheckEach(check, cands, from).value)[from + j] == count(cands[j])
  {
    forall j | 0 <= j < |cands|
      ensures multiset(CheckEach(check, cands, from).value)[from + j] == count(cands[j])
    {
      EachCount(check, cands, from, j);
    }
  }

  lemma EachEmptyAll(check: (nat, Dict) -> Result<seq<int>>, cands: seq<Dict>, from: nat,
                     ok: Dict -> bool, count: Dict -> nat)
    requires CheckEach(check, cands, from).Ok? && OwnIndex(check) && Describes(check, ok, count)
    ensures CheckEach(check, cands, from).value == [] <==> forall j :: 0 <= j < |cands| ==> ok(cands[j])
  {
    EachEmpty(check, cands, from);
    forall j | 0 <= j < |cands|
      ensures check(from + j, cands[j]) == Ok([]) <==> ok(cands[j])
    {
      EachCount(check, cands, from, j);
    }
  }

  lemma EachFlagsAll(check: (nat, Dict) -> Result<seq<int>>, cands: seq<Dict>, from: nat,
                     ok: Dict -> bool, count: Dict -> nat)
    requires CheckEach(check, cands, from).Ok? && OwnIndex(check) && Describes(check, ok, count)
    ensures forall x :: x in CheckEach(check, cands, from).value ==>
              from <= x < from + |cands| && !ok(cands[x - from])
  {
    forall x | x in CheckEach(check, cands, from).value
      ensures from <= x < from + |cands| && !ok(cands[x - from])
    {
      var j := EachAt(check, cands, from, x);
    }
  }

  // The bounds check itself.

  function InBoundsOf(names: seq<string>, ranges: Ranges): Dict -> bool
  {
    (c: Dict) => InBounds(c, names, ranges)
  }

  function ViolationsOf(names: seq<string>, ranges: Ranges): Dict -> nat
  {
    (c: Dict) => Violations(c, names, ranges)
  }

  /** The inner loop reports only its own index, once per violated bound. */
  lemma InnerDescribes(names: seq<string>, ranges: Ranges)
    ensures OwnIndex(Inner(names, ranges))
    ensures Describes(Inner(names, ranges), InBoundsOf(names, ranges), ViolationsOf(names, ranges))
  {
    forall i, c | Inner(names, ranges)(i, c).Ok?
      ensures forall y :: y in Inner(names, ranges)(i, c).value ==> y == i
      ensures |Inner(names, ranges)(i, c).value| == ViolationsOf(names, ranges)(c)
      ensures Inner(names, ranges)(i, c).value == [] <==> InBoundsOf(names, ranges)(c)
    {
      assert Inner(names, ranges)(i, c) == CheckOne(i, c, names, ranges);
      CheckOneCount(i, c, names, ranges);
    }
  }

  /** The bounds check reports only indices of the batch. */
  lemma CheckCandidatesRange(cands: seq<Dict>, names: seq<string>, ranges: Ranges, from: nat)
    requires CheckCandidates(cands, names, ranges, from).Ok?
    ensures forall x :: x in CheckCandidates(cands, names, ranges, from).value ==> from <= x < from + |cands|
  {
    InnerDescribes(names, ranges);
    EachFlagsAll(Inner(names, ranges), cands, from, InBoundsOf(names, ranges), ViolationsOf(names, ranges));
  }

  /** Index `from + j` occurs as often as candidate `j` violates a bound. */
  lemma CheckCandidatesCount(cands: seq<Dict>, names: seq<string>, ranges: Ranges, from: nat)
    requires CheckCandidates(cands, names, ranges, from).Ok?
    ensures forall j :: 0 <= j < |cands| ==>
              multiset(CheckCandidates(cands, names, ranges, from).value)[from + j] == Violations(cands[j], names, ranges)
  {
    InnerDescribes(names, ranges);
    EachCountAll(Inner(names, ranges), cands, from, InBoundsOf(names, ranges), ViolationsOf(names, ranges));
  }

  /** Nothing is reported exactly when every candidate is in bounds: the
      repair loop stops only on a batch that respects every bound. */
  lemma CheckCandidatesEmpty(cands: seq<Dict>, names: seq<string>, ranges: Ranges, from: nat)
    requires CheckCandidates(cands, names, ranges, from).Ok?
    ensures CheckCandidates(cands, names, ranges, from).value == []
            <==> forall j :: 0 <= j < |cands| ==> InBounds(cands[j], names, ranges)
  {
    InnerDescribes(names, ranges);
    EachEmptyAll(Inner(names, ranges), cands, from, InBoundsOf(names, ranges), ViolationsOf(names, ranges));
  }

  /** Every reported index is one of the batch's and names a candidate that
      is out of bounds: re-asking it never replaces a good candidate. */
  lemma CheckCandidatesFlags(cands: seq<Dict>, names: seq<string>, ranges: Ranges, from: nat)
    requires CheckCandidates(cands, names, ranges, from).Ok?
    ensures forall x :: x in CheckCandidates(cands, names, ranges, from).value ==>
              from <= x < from + |cands| && !InBounds(cands[x - from], names, ranges)
  {
    InnerDescribes(names, ranges);
    EachFlagsAll(Inner(names, ranges), cands, from, InBoundsOf(names, ranges), ViolationsOf(names, ranges));
  }

  /** Occurrences of `x` in `head + tail`, when `head` holds only `from`. */
  lemma CountJoin(head: seq<int>, tail: seq<int>, from: int, x: int, n: nat)
    requires forall y :: y in head ==> y == from
    requires x == from ==> x !in tail
    requires x != from ==> multiset(tail)[x] == n
    ensures multiset(head + tail)[x] == if x == from then |head| else n
  {
    assert multiset(head + tail) == multiset(head) + multiset(tail);
    MultisetOfConstant(head, from);
    if x != from {
      assert x !in head;
    }
  }

  lemma {:induction false} MultisetOfConstant(s: seq<int>, x: int)
    requires forall y :: y in s ==> y == x
    ensures multiset(s)[x] == |s|
  {
    if s != [] {
      assert s == [s[0]] + s[1..];
      assert s[0] in s;
      assert forall y :: y in s[1..] ==> y in s;
      MultisetOfConstant(s[1..], x);
      assert multiset(s) == multiset{s[0]} + multiset(s[1..]);
      assert s[0] == x;
      assert multiset{s[0]}[x] == 1;
      assert |s[1..]| == |s| - 1;
    }
  }

  // ---------------------------------------------------------------------
  // NaN replacement.

  /** `fitness_results[np.isnan(fitness_results)] = cma_nan_replacement`. */
  function ReplaceNaN(fs: seq<Fitness>, replacement: real): seq<Fitness>
  {
    seq(|fs|, i requires 0 <= i < |fs| => if fs[i].NaN? then Num(replacement) else fs[i])
  }

  /** After the replacement no NaN is left, every NaN became the replacement
      value and every number is untouched. */
  lemma ReplaceNaNSound(fs: seq<Fitness>, replacement: real)
    ensures |ReplaceNaN(fs, replacement)| == |fs|
    ensures forall i :: 0 <= i < |fs| ==> ReplaceNaN(fs, replacement)[i].Num?
    ensures forall i :: 0 <= i < |fs| ==> fs[i].Num? ==> ReplaceNaN(fs, replacement)[i] == fs[i]
    ensures forall i :: 0 <= i < |fs| ==> fs[i].NaN? ==> ReplaceNaN(fs, replacement)[i] == Num(replacement)
  {
  }

  /** The default replacement value, 1e9. */
  const DefaultNaNReplacement: real := 1000000000.0

  /** What is told to the optimiser: the iteration callback's
      `fitness_results` when it returns one, the NaN-free results otherwise. */
  function Told(results: seq<Fitness>, replacement: real, override: Option<seq<Fitness>>): (r: seq<Fitness>)
    ensures override.Some? ==> r == override.value
    ensures override.None? ==> |r| == |results| && forall i :: 0 <= i < |r| ==> r[i].Num?
  {
    if override.Some? then override.value else ReplaceNaN(results, replacement)
  }

  // ---------------------------------------------------------------------
  // The set-up of `perform_cma_es_optimization`.

  /** What the optimisation runs on: the sorted names, the defaulted ranges,
      the dtypes in name order, the optimiser's options and its start point. */
  datatype CmaSetup = CmaSetup(names: seq<string>, ranges: Ranges, dtypes: seq<Dtype>,
                               options: CmaOptions, x0: seq<Value>)

  /** The set-up, in the order the source raises: defaults over the sorted
      names (`ValueError`, `ZeroDivisionError`), scalings, bounds when they
      are used (`KeyError`), start point. */
  function SetupCma(ranges: Ranges, sigma0: real, popsize: PopsizeSetting, autoScaling: bool,
                    useBounds: bool): (r: Result<CmaSetup>)
    ensures var names := SortNames(RangeNames(ranges));
            DefaultAll(ranges, names, sigma0).Err? ==> r == Err(DefaultAll(ranges, names, sigma0).error)
    ensures r.Ok? ==> r.value.names == SortNames(RangeNames(ranges))
    ensures r.Ok? ==> SortedNames(r.value.names) && multiset(r.value.names) == multiset(RangeNames(ranges))
    ensures r.Ok? ==> |r.value.names| == |ranges| && |r.value.dtypes| == |ranges| && |r.value.x0| == |ranges|
    ensures r.Ok? ==> DefaultAll(ranges, r.value.names, sigma0) == Ok(r.value.ranges)
    ensures r.Ok? ==> Dtypes(r.value.ranges, r.value.names) == Ok(r.value.dtypes)
    ensures r.Ok? ==> InitialPoint(r.value.ranges, r.value.names) == Ok(r.value.x0)
    ensures r.Ok? ==> r.value.options.popsize == Popsize(popsize, |ranges|)
    ensures r.Ok? ==> Scalings(r.value.ranges, r.value.names).Ok? &&
                      (r.value.options.stds.Some? <==>
                         autoScaling && !AllOnes(Scalings(r.value.ranges, r.value.names).value)) &&
                      (r.value.options.stds.Some? ==>
                         r.value.options.stds.value == Scalings(r.value.ranges, r.value.names).value)
    ensures r.Ok? ==> (r.value.options.bounds.Some? <==> useBounds)
    ensures r.Ok? && r.value.options.bounds.Some? ==>
              Bounds(r.value.ranges, r.value.names, false) == Ok(r.value.options.bounds.value.0) &&
              Bounds(r.value.ranges, r.value.names, true) == Ok(r.value.options.bounds.value.1)
  {
    var names := SortNames(RangeNames(ranges));
    assert |names| == |multiset(names)| == |multiset(RangeNames(ranges))| == |ranges|;
    var defaulted := DefaultAll(ranges, names, sigma0);
    if defaulted.Err? then Err(defaulted.error)
    else
      var rs := defaulted.value;
      var scalings := Scalings(rs, names);
      var lows := Bounds(rs, names, false);
      var highs := Bounds(rs, names, true);
      var dtypes := Dtypes(rs, names);
      var x0 := InitialPoint(rs, names);
      if scalings.Err? then Err(scalings.error)
      else if useBounds && lows.Err? then Err(lows.error)
      else if useBounds && highs.Err? then Err(highs.error)
      else if dtypes.Err? then Err(dtypes.error)
      else if x0.Err? then Err(x0.error)
      else
        var bounds := if useBounds then Some((lows.value, highs.value)) else None;
        Ok(CmaSetup(names, rs, dtypes.value, Options(popsize, scalings.value, autoScaling, bounds, |names|), x0.value))
  }

  /** The set-up's entry of its `k`-th name is that name's own entry with its
      defaults filled in. */
  lemma SetupDefaulted(ranges: Ranges, sigma0: real, popsize: PopsizeSetting, autoScaling: bool, useBounds: bool,
                       s: CmaSetup, k: nat)
    requires SetupCma(ranges, sigma0, popsize, autoScaling, useBounds) == Ok(s) && k < |s.names|
    ensures RangeOf(ranges, s.names[k]).Some? && WithDefaults(RangeOf(ranges, s.names[k]).value, sigma0).Ok?
    ensures RangeOf(s.ranges, s.names[k]) == Some(WithDefaults(RangeOf(ranges, s.names[k]).value, sigma0).value)
  {
    assert RangeOf(s.ranges, s.names[k]) == Some(Defaulted(ranges, s.names[k], sigma0).value);
  }

  /** Each parameter starts at its own `x0` or, without one, at
      `(high - low)/2`, converted by its dtype. */
  lemma SetupStart(ranges: Ranges, sigma0: real, popsize: PopsizeSetting, autoScaling: bool, useBounds: bool,
                   s: CmaSetup, k: nat)
    requires SetupCma(ranges, sigma0, popsize, autoScaling, useBounds) == Ok(s) && k < |s.names|
    ensures var p := RangeOf(ranges, s.names[k]);
            p.Some? && s.dtypes[k] == p.value.dtype &&
            s.x0[k] == Convert(p.value.dtype, if p.value.x0.Some? then p.value.x0.value
                                              else (p.value.high.value - p.value.low.value) / 2.0)
  {
    SetupDefaulted(ranges, sigma0, popsize, autoScaling, useBounds, s, k);
  }

  /** When CMA is given standard deviations, each is the parameter's own
      `scaling` or, without one, `(high - low)/(3 sigma0)`. */
  lemma SetupStds(ranges: Ranges, sigma0: real, popsize: PopsizeSetting, autoScaling: bool, useBounds: bool,
                  s: CmaSetup, k: nat)
    requires SetupCma(ranges, sigma0, popsize, autoScaling, useBounds) == Ok(s) && k < |s.names|
    requires s.options.stds.Some?
    ensures var p := RangeOf(ranges, s.names[k]);
            p.Some? &&
            s.options.stds.value[k] == if p.value.scaling.Some? then p.value.scaling.value
                                       else (p.value.high.value - p.value.low.value) / (3.0 * sigma0)
  {
    SetupDefaulted(ranges, sigma0, popsize, autoScaling, useBounds, s, k);
  }

  /** When bounds are used, each parameter's are its own `low` and `high`. */
  lemma SetupBounds(ranges: Ranges, sigma0: real, popsize: PopsizeSetting, autoScaling: bool, useBounds: bool,
                    s: CmaSetup, k: nat)
    requires SetupCma(ranges, sigma0, popsize, autoScaling, useBounds) == Ok(s) && k < |s.names|
    requires s.options.bounds.Some?
    ensures var p := RangeOf(ranges, s.names[k]);
            p.Some? && Some(s.options.bounds.value.0[k]) == p.value.low && Some(s.options.bounds.value.1[k]) == p.value.high
  {
    SetupDefaulted(ranges, sigma0, popsize, autoScaling, useBounds, s, k);
  }

}
