/** The filtering functions experiment descriptors hand to the engine: the
    integer clamp of `M` and `ratio_conj` (the CMA-ES fit of August 2016 and
    the random sweep of September 2014 share the same rule) and the
    constant-total predicate of the hierarchical-network grid of June 2013.
    A filter that rewrites `new_parameters` in place is modelled by the
    dictionary it accepts. */
module ExperimentFilters {
  import opened Common
  import opened ParameterSpace

  /** `np.allclose(a, b)` with its default tolerances:
      `|a - b| <= atol + rtol*|b|`, `atol = 1e-8`, `rtol = 1e-5`. */
  predicate AllClose(a: real, b: real)
  {
    var diff := if a >= b then a - b else b - a;
    var mag := if b >= 0.0 then b else -b;
    diff <= 0.00000001 + 0.00001 * mag
  }

  /** Between integers of magnitude below 10^5 the tolerance is less than
      one, so closeness is equality. */
  lemma AllCloseInts(a: int, b: int)
    requires -99999 <= b <= 99999
    ensures AllClose(a as real, b as real) <==> a == b
  {
    if a != b {
      var mag := if b >= 0 then b else -b;
      assert 0.00001 * (mag as real) <= 0.99999;
    }
  }

  // ---------------------------------------------------------------------
  // The clamp of M and ratio_conj.

  /** `floor(n**0.5)`: the integer square root, exactly. */
  function IntSqrt(n: nat): (r: nat)
    ensures r * r <= n < (r + 1) * (r + 1)
  {
    if n == 0 then 0
    else
      var s := IntSqrt(n - 1);
      if (s + 1) * (s + 1) <= n then
        assert (s + 1) * (s + 1) < (s + 2) * (s + 2);
        s + 1
      else s
  }

  /** `int(floor(x/2.)*2.)`: the largest even integer not above `x`. */
  function EvenFloor(x: real): (r: int)
    ensures r % 2 == 0 && r as real <= x < r as real + 2.0
  {
    (x / 2.0).Floor * 2
  }

  /** The quantities the clamp works out: the conjunctive share
      `M_conj_prior = int(M*ratio_conj)`, the perfect square `M_conj_true`
      and the even `M_feat_true`. */
  datatype Clamp = Clamp(prior: int, conj: int, feat: int)
  {
    /** `M_true`. */
    function Total(): int
    {
      conj + feat
    }
  }

  /** The clamp arithmetic on `M` and `ratio_conj`. A negative
      `M_conj_prior` has no real square root (`ValueError`); an `M_true` of
      zero makes `ratio_true` a division by zero. */
  function ClampOf(m: real, ratio: real): (r: Result<Clamp>)
    ensures r.Ok? ==> r.value.prior == Trunc(m * ratio) && r.value.prior >= 0 && r.value.Total() != 0
    ensures r.Err? <==> Trunc(m * ratio) < 0 ||
                        (Trunc(m * ratio) >= 0 &&
                         IntSqrt(Trunc(m * ratio)) * IntSqrt(Trunc(m * ratio)) + EvenFloor(m - Trunc(m * ratio) as real) == 0)
  {
    var prior := Trunc(m * ratio);
    if prior < 0 then Err("ValueError")
    else
      var k := IntSqrt(prior);
      var c := Clamp(prior, k * k, EvenFloor(m - prior as real));
      if c.Total() == 0 then Err("ZeroDivisionError") else Ok(c)
  }

  /** `new_parameters['M']` and `['ratio_conj']` as numbers. */
  function ClampInputs(d: Dict): (r: Result<(real, real)>)
    ensures r.Ok? ==> Lookup(d, "M").Some? && NumberOf(Lookup(d, "M").value) == Some(r.value.0)
    ensures r.Ok? ==> Lookup(d, "ratio_conj").Some? && NumberOf(Lookup(d, "ratio_conj").value) == Some(r.value.1)
    ensures Lookup(d, "M").None? || Lookup(d, "ratio_conj").None? ==> r == Err("KeyError")
  {
    var m, rc := Lookup(d, "M"), Lookup(d, "ratio_conj");
    if m.None? || rc.None? then Err("KeyError")
    else if NumberOf(m.value).None? || NumberOf(rc.value).None? then Err("TypeError")
    else Ok((NumberOf(m.value).value, NumberOf(rc.value).value))
  }

  /** The clamp filter. With `should_clamp` it always accepts, after
      rewriting `M` to `M_true` and `ratio_conj` to `M_conj_true/M_true`;
      without, it accepts the set unchanged exactly when `M_true` is close
      to `M`. The arithmetic runs (and may raise) before `should_clamp` is
      looked at. */
  function ClampVerdict(shouldClamp: bool, d: Dict): (v: Verdict)
    ensures v.Raise? <==> ClampInputs(d).Err? || ClampOf(ClampInputs(d).value.0, ClampInputs(d).value.1).Err?
    ensures !shouldClamp ==> v.Raise? || v == Reject || v == Accept(d)
    ensures shouldClamp ==> v.Raise? || v.Accept?
  {
    match ClampInputs(d)
    case Err(e) => Raise(e)
    case Ok((m, ratio)) =>
      match ClampOf(m, ratio)
      case Err(e) => Raise(e)
      case Ok(c) =>
        if shouldClamp then
          Accept(Set(Set(d, "M", IntV(c.Total())), "ratio_conj", RealV(c.conj as real / c.Total() as real)))
        else if AllClose(c.Total() as real, m) then Accept(d)
        else Reject
  }

  /** `filtering_function` with `filtering_function_parameters = {'should_clamp': ...}` bound. */
  function ClampFilter(shouldClamp: bool): Filter
  {
    FilterFn(d => ClampVerdict(shouldClamp, d))
  }

  /** Once the inputs are read and the arithmetic succeeds, the verdict
      depends only on `should_clamp` and on the closeness test. */
  lemma ClampVerdictOk(shouldClamp: bool, d: Dict)
    requires ClampInputs(d).Ok? && ClampOf(ClampInputs(d).value.0, ClampInputs(d).value.1).Ok?
    ensures var m := ClampInputs(d).value.0;
            var c := ClampOf(m, ClampInputs(d).value.1).value;
            Apply(ClampFilter(shouldClamp), d) ==
              if shouldClamp then Accept(Set(Set(d, "M", IntV(c.Total())), "ratio_conj", RealV(c.conj as real / c.Total() as real)))
              else if AllClose(c.Total() as real, m) then Accept(d) else Reject
  {
  }

  /** With `should_clamp` the filter accepts with `M` rewritten to
      `M_conj_true + M_feat_true` and `ratio_conj` to `M_conj_true/M_true`;
      every other entry keeps its value. */
  lemma ClampRewrites(d: Dict, k: string)
    requires ClampInputs(d).Ok? && ClampOf(ClampInputs(d).value.0, ClampInputs(d).value.1).Ok?
    ensures var c := ClampOf(ClampInputs(d).value.0, ClampInputs(d).value.1).value;
            var v := Apply(ClampFilter(true), d);
            v.Accept? &&
            Lookup(v.params, "M") == Some(IntV(c.conj + c.feat)) &&
            Lookup(v.params, "ratio_conj") == Some(RealV(c.conj as real / (c.conj + c.feat) as real)) &&
            (k != "M" && k != "ratio_conj" ==> Lookup(v.params, k) == Lookup(d, k))
  {
    var c := ClampOf(ClampInputs(d).value.0, ClampInputs(d).value.1).value;
    ClampVerdictOk(true, d);
    var d1 := Set(d, "M", IntV(c.Total()));
    SetLookup(d1, "ratio_conj", RealV(c.conj as real / c.Total() as real), "M");
    SetLookup(d, "M", IntV(c.Total()), "M");
    SetLookup(d1, "ratio_conj", RealV(c.conj as real / c.Total() as real), "ratio_conj");
    SetLookup(d1, "ratio_conj", RealV(c.conj as real / c.Total() as real), k);
    SetLookup(d, "M", IntV(c.Total()), k);
  }

  /** Squaring is monotone on the naturals. */
  lemma SquareMono(x: nat, y: nat)
    requires x <= y
    ensures x * x <= y * y
  {
    var d: nat := y - x;
    assert y * y == x * x + d * (x + y);
  }

  /** A square not above `n` is not above the square of `n`'s integer root. */
  lemma SquareBelowRoot(k: nat, n: nat, j: int)
    requires k * k <= n < (k + 1) * (k + 1) && j * j <= n
    ensures j * j <= k * k
  {
    var a: nat := if j >= 0 then j else -j;
    assert a * a == j * j;
    if a > k {
      SquareMono(k + 1, a);
    } else {
      SquareMono(a, k);
    }
  }

  /** `M_conj_true` is the largest perfect square not above `M_conj_prior`. */
  lemma ClampSquareMaximal(m: real, ratio: real, j: int)
    requires ClampOf(m, ratio).Ok?
    ensures var c := ClampOf(m, ratio).value;
            c.conj == IntSqrt(c.prior) * IntSqrt(c.prior) && c.conj <= c.prior &&
            (j * j <= c.prior ==> j * j <= c.conj)
  {
    var c := ClampOf(m, ratio).value;
    if j * j <= c.prior {
      SquareBelowRoot(IntSqrt(c.prior), c.prior, j);
    }
  }

  /** `M_feat_true` is the largest even integer not above `M - M_conj_prior`. */
  lemma ClampEvenMaximal(m: real, ratio: real, e: int)
    requires ClampOf(m, ratio).Ok?
    ensures var c := ClampOf(m, ratio).value;
            c.feat % 2 == 0 && c.feat as real <= m - c.prior as real &&
            (e % 2 == 0 && e as real <= m - c.prior as real ==> e <= c.feat)
  {
  }

  /** The clamped `M` never exceeds the original `M`. */
  lemma ClampNeverIncreases(m: real, ratio: real)
    requires ClampOf(m, ratio).Ok?
    ensures ClampOf(m, ratio).value.Total() as real <= m
  {
    var c := ClampOf(m, ratio).value;
    ClampSquareMaximal(m, ratio, 0);
  }

  /** An integer `M` equals `M_true` exactly when nothing is clamped away:
      `M_conj_prior` is already a square and `M - M_conj_prior` is even. */
  lemma ClampExact(mi: int, ratio: real)
    requires ClampOf(mi as real, ratio).Ok?
    ensures var c := ClampOf(mi as real, ratio).value;
            c.Total() == mi <==> c.conj == c.prior && (mi - c.prior) % 2 == 0
  {
    var c := ClampOf(mi as real, ratio).value;
    ClampSquareMaximal(mi as real, ratio, 0);
    ClampEvenMaximal(mi as real, ratio, mi - c.prior);
  }

  /** For an integer `M` below 10^5, `M_true` is close to `M` exactly when
      nothing is clamped away. */
  lemma ClampCloseExact(mi: int, ratio: real)
    requires ClampOf(mi as real, ratio).Ok? && -99999 <= mi <= 99999
    ensures var c := ClampOf(mi as real, ratio).value;
            AllClose(c.Total() as real, mi as real) <==> c.conj == c.prior && (mi - c.prior) % 2 == 0
  {
    AllCloseInts(ClampOf(mi as real, ratio).value.Total(), mi);
    ClampExact(mi, ratio);
  }

  /** Without clamping, an integer `M` below 10^5 is accepted, unchanged,
      exactly when it needs no clamping; otherwise it is rejected. */
  lemma NoClampAcceptsExact(d: Dict, mi: int, ratio: real)
    requires ClampInputs(d) == Ok((mi as real, ratio)) && -99999 <= mi <= 99999
    requires ClampOf(mi as real, ratio).Ok?
    ensures var c := ClampOf(mi as real, ratio).value;
            Apply(ClampFilter(false), d) == if c.conj == c.prior && (mi - c.prior) % 2 == 0 then Accept(d) else Reject
  {
    ClampVerdictOk(false, d);
    ClampCloseExact(mi, ratio);
  }

  /** `M` is drawn by `randint(6, 625)` in the random sweep, so before
      filtering it lies in [6, 625). */
  lemma RandomSweepM(u: real)
    requires 0.0 <= u < 1.0
    ensures SamplerFor(SweepMRange).Ok?
    ensures var s := Sample(SamplerFor(SweepMRange).value, u);
            s.Ok? && s.value.IntV? && 6 <= s.value.i < 625
  {
    RandIntRange(6, 625, u);
  }

  /** The `M` entry of the random sweep's ranges. */
  const SweepMRange := ParamRange(IntType, None, None, Some("randint"), Some(6.0), Some(625.0), None, None)

  // ---------------------------------------------------------------------
  // The constant-total predicate.

  /** `M + M_layer_one` as a number. */
  function TotalInputs(d: Dict): (r: Result<(real, real)>)
  {
    var m, ml := Lookup(d, "M"), Lookup(d, "M_layer_one");
    if m.None? || ml.None? then Err("KeyError")
    else if NumberOf(m.value).None? || NumberOf(ml.value).None? then Err("TypeError")
    else Ok((NumberOf(m.value).value, NumberOf(ml.value).value))
  }

  /** The constant-total filter: in `equal` mode, accept when
      `M + M_layer_one` is close to the target; in `smaller_equal` mode, when
      the sum is at most the target and `M < M_layer_one`; in any other mode
      the function returns `None`, a rejection, without looking at the
      parameters. It never rewrites the set. */
  function TotalVerdict(target: real, comparison: string, d: Dict): (v: Verdict)
    ensures v.Accept? ==> v.params == d
    ensures comparison != "equal" && comparison != "smaller_equal" ==> v == Reject
    ensures v.Raise? <==> (comparison == "equal" || comparison == "smaller_equal") && TotalInputs(d).Err?
  {
    if comparison == "equal" then
      match TotalInputs(d)
      case Err(e) => Raise(e)
      case Ok((m, ml)) => if AllClose(m + ml, target) then Accept(d) else Reject
    else if comparison == "smaller_equal" then
      match TotalInputs(d)
      case Err(e) => Raise(e)
      case Ok((m, ml)) => if m + ml <= target && m < ml then Accept(d) else Reject
    else Reject
  }

  function TotalFilter(target: real, comparison: string): Filter
  {
    FilterFn(d => TotalVerdict(target, comparison, d))
  }

  /** In `equal` mode, with integer values and an integral target below 10^5,
      a set is accepted exactly when its two sizes add up to the target. */
  lemma TotalEqualExact(t: int, d: Dict)
    requires -99999 <= t <= 99999
    requires TotalInputs(d).Ok?
    requires var (m, ml) := TotalInputs(d).value; m.Floor as real == m && ml.Floor as real == ml
    ensures var (m, ml) := TotalInputs(d).value;
            Apply(TotalFilter(t as real, "equal"), d) == (if m + ml == t as real then Accept(d) else Reject)
  {
    var (m, ml) := TotalInputs(d).value;
    AllCloseInts(m.Floor + ml.Floor, t);
    assert (m.Floor + ml.Floor) as real == m + ml;
  }

  /** In `smaller_equal` mode a set is accepted exactly when the sum is at
      most the target and `M` is the smaller of the two. */
  lemma TotalSmallerEqual(target: real, d: Dict)
    requires TotalInputs(d).Ok?
    ensures var (m, ml) := TotalInputs(d).value;
            Apply(TotalFilter(target, "smaller_equal"), d) == (if m + ml <= target && m < ml then Accept(d) else Reject)
  {
  }

  // ---------------------------------------------------------------------
  // The hierarchical-network grid filtered to a constant total of 200.

  /** The grid of the hierarchical-network sweep: `M` in 1..200 and
      `M_layer_one` in 2, 4, ..., 198, both of dtype `int`. */
  const HierarchicalRanges: Ranges := [
    ("M", ParamRange(IntType, Some(seq(200, i => (i + 1) as real)), None, None, None, None, None, None)),
    ("M_layer_one", ParamRange(IntType, Some(seq(99, i => (2 * i + 2) as real)), None, None, None, None, None, None))]

  /** Its filter: `equal` mode with a target total of 200. */
  const HierarchicalFilter: Filter := TotalFilter(200.0, "equal")

  /** One grid point. */
  function Cand(m: int, l: int): Dict
  {
    [("M", IntV(m)), ("M_layer_one", IntV(l))]
  }

  /** The filter accepts a grid point, unchanged, exactly when its sizes add
      up to 200. */
  lemma CandVerdict(m: int, l: int)
    ensures Apply(HierarchicalFilter, Cand(m, l)) == if m + l == 200 then Accept(Cand(m, l)) else Reject
  {
    var d := Cand(m, l);
    assert Lookup(d, "M") == Some(IntV(m));
    assert Lookup(d, "M_layer_one") == Some(IntV(l));
    assert TotalInputs(d) == Ok((m as real, l as real));
    TotalEqualExact(200, d);
  }

  /** The `M_layer_one` axis, first `n` values, each as a one-entry set. */
  function Rows(n: nat): seq<Dict>
  {
    seq(n, j requires 0 <= j < n => [("M_layer_one", IntV(2 * j + 2))])
  }

  /** One more value of `M_layer_one` adds one grid point at the end of the row. */
  lemma RowsSnoc(m: int, n: nat)
    requires n > 0
    ensures Prepend(("M", IntV(m)), Rows(n)) == Prepend(("M", IntV(m)), Rows(n - 1)) + [Cand(m, 2 * n)]
  {
    var p := Prepend(("M", IntV(m)), Rows(n - 1));
    forall i | 0 <= i < n ensures Prepend(("M", IntV(m)), Rows(n))[i] == (p + [Cand(m, 2 * n)])[i] {
      if i < n - 1 {
        assert Rows(n)[i] == Rows(n - 1)[i];
      }
    }
  }

  /** Screening one value of `M` against the first `n` values of
      `M_layer_one` keeps the one point whose total is 200, if there is one. */
  lemma {:induction false} RowScreen(m: int, n: nat)
    ensures Screen(HierarchicalFilter, Prepend(("M", IntV(m)), Rows(n))) == Ok(RowHits(m, n))
  {
    if n > 0 {
      RowScreen(m, n - 1);
      RowsSnoc(m, n);
      RowStep(Prepend(("M", IntV(m)), Rows(n - 1)), m, n);
    } else {
      assert Prepend(("M", IntV(m)), Rows(0)) == [];
    }
  }

  /** The point of a row kept among its first `n` values, if any. */
  function RowHits(m: int, n: nat): seq<Dict>
  {
    if m % 2 == 0 && 200 - 2 * n <= m <= 198 then [Cand(m, 200 - m)] else []
  }

  lemma RowStep(p: seq<Dict>, m: int, n: nat)
    requires n > 0 && Screen(HierarchicalFilter, p) == Ok(RowHits(m, n - 1))
    ensures Screen(HierarchicalFilter, p + [Cand(m, 2 * n)]) == Ok(RowHits(m, n))
  {
    ScreenSnoc(HierarchicalFilter, p, Cand(m, 2 * n));
    CandVerdict(m, 2 * n);
    if m + 2 * n == 200 {
      RowHitsEdge(m, n);
    } else {
      RowHitsSame(m, n);
    }
  }

  /** The value of `M_layer_one` that completes the total is the row's hit. */
  lemma RowHitsEdge(m: int, n: nat)
    requires n > 0 && m + 2 * n == 200
    ensures RowHits(m, n - 1) == [] && RowHits(m, n) == [] + [Cand(m, 2 * n)]
  {
    assert m == 2 * (100 - n);
  }

  /** Any other value of `M_layer_one` leaves the row's hits as they were. */
  lemma RowHitsSame(m: int, n: nat)
    requires n > 0 && m + 2 * n != 200
    ensures RowHits(m, n) == RowHits(m, n - 1)
  {
    if m == 201 - 2 * n {
      assert m % 2 == 1 by {
        assert m == 2 * (100 - n) + 1;
      }
    }
  }

  predicate Hit(m: int)
  {
    m % 2 == 0 && 2 <= m <= 198
  }

  /** The points kept, value of `M` by value of `M`. */
  function Hits(ms: seq<int>): seq<Dict>
  {
    if ms == [] then [] else (if Hit(ms[0]) then [Cand(ms[0], 200 - ms[0])] else []) + Hits(ms[1..])
  }

  function IntVs(ms: seq<int>): (vs: seq<Value>)
    ensures |vs| == |ms| && forall i :: 0 <= i < |ms| ==> vs[i] == IntV(ms[i])
  {
    seq(|ms|, i requires 0 <= i < |ms| => IntV(ms[i]))
  }

  /** Screening the grid is screening it one value of `M` at a time. */
  lemma {:induction false} GridScreen(ms: seq<int>)
    ensures Screen(HierarchicalFilter, Extend("M", IntVs(ms), Rows(99))) == Ok(Hits(ms))
  {
    if ms != [] {
      GridScreen(ms[1..]);
      assert IntVs(ms)[1..] == IntVs(ms[1..]);
      var head := Prepend(("M", IntV(ms[0])), Rows(99));
      var tail := Extend("M", IntVs(ms[1..]), Rows(99));
      assert Extend("M", IntVs(ms), Rows(99)) == head + tail;
      RowScreen(ms[0], 99);
      assert RowHits(ms[0], 99) == if Hit(ms[0]) then [Cand(ms[0], 200 - ms[0])] else [];
      ScreenAppend(HierarchicalFilter, head, tail);
    } else {
      assert Extend("M", IntVs(ms), Rows(99)) == [];
    }
  }

  /** The `n` consecutive integers from `lo`. */
  function Span(lo: int, n: nat): (r: seq<int>)
    ensures |r| == n && forall i :: 0 <= i < n ==> r[i] == lo + i
  {
    seq(n, i requires 0 <= i < n => lo + i)
  }

  /** The points with `M` = 2j + 2, 2j + 4, ..., 198 and a total of 200. */
  function KeptFrom(j: nat): (r: seq<Dict>)
    requires j <= 99
    ensures |r| == 99 - j && forall k :: 0 <= k < 99 - j ==> r[k] == Cand(2 * (j + k) + 2, 198 - 2 * (j + k))
  {
    seq(99 - j, k requires 0 <= k < 99 - j => Cand(2 * (j + k) + 2, 198 - 2 * (j + k)))
  }

  /** From `M = 2j + 1` on, the kept points are those with `M` = 2j + 2,
      2j + 4, ..., 198. */
  lemma {:induction false} HitsFrom(j: nat)
    requires j <= 99
    ensures Hits(Span(2 * j + 1, 200 - 2 * j)) == KeptFrom(j)
    decreases 99 - j
  {
    HitsPair(j);
    if j < 99 {
      HitsFrom(j + 1);
      assert KeptFrom(j) == [Cand(2 * j + 2, 200 - (2 * j + 2))] + KeptFrom(j + 1);
    }
  }

  /** Of `M = 2j + 1` and `M = 2j + 2` only the even one is kept, and only
      while it is below 200. */
  lemma HitsPair(j: nat)
    requires j <= 99
    ensures j == 99 ==> Hits(Span(2 * j + 1, 200 - 2 * j)) == []
    ensures j < 99 ==> Hits(Span(2 * j + 1, 200 - 2 * j)) ==
                       [Cand(2 * j + 2, 200 - (2 * j + 2))] + Hits(Span(2 * (j + 1) + 1, 200 - 2 * (j + 1)))
  {
    var ms := Span(2 * j + 1, 200 - 2 * j);
    var rest := ms[1..];
    assert !Hit(ms[0]) && Hits(ms) == Hits(rest);
    assert rest[1..] == ms[2..] == Span(2 * (j + 1) + 1, 200 - 2 * (j + 1));
    if j == 99 {
      assert !Hit(rest[0]) && rest[1..] == [];
    } else {
      assert Hit(rest[0]);
    }
  }

  /** The converted axes of the hierarchical grid. */
  lemma HierarchicalAxes()
    ensures GridAxes(HierarchicalRanges) == Ok([("M", IntVs(Span(1, 200))), ("M_layer_one", Rows1(99))])
  {
    var axes := GridAxes(HierarchicalRanges).value;
    var r0 := HierarchicalRanges[0].1.range.value;
    var r1 := HierarchicalRanges[1].1.range.value;
    forall i | 0 <= i < 200 ensures ConvertAll(IntType, r0)[i] == IntVs(Span(1, 200))[i] {
      IntConvert(i + 1);
    }
    forall i | 0 <= i < 99 ensures ConvertAll(IntType, r1)[i] == Rows1(99)[i] {
      IntConvert(2 * i + 2);
    }
    assert ConvertAll(IntType, r0) == IntVs(Span(1, 200));
    assert ConvertAll(IntType, r1) == Rows1(99);
    assert |axes| == 2;
    assert axes[0] == ("M", ConvertAll(IntType, r0));
    assert axes[1] == ("M_layer_one", ConvertAll(IntType, r1));
    assert axes == [("M", IntVs(Span(1, 200))), ("M_layer_one", Rows1(99))];
  }

  /** `int` of a whole number is that number. */
  lemma IntConvert(n: int)
    ensures Convert(IntType, n as real) == IntV(n)
  {
    assert (n as real).Floor == n;
  }

  /** The values of the `M_layer_one` axis. */
  function Rows1(n: nat): (r: seq<Value>)
    ensures |r| == n && forall j :: 0 <= j < n ==> r[j] == IntV(2 * j + 2)
  {
    seq(n, j requires 0 <= j < n => IntV(2 * j + 2))
  }

  /** The `M_layer_one` axis is the single-entry rows of the grid. */
  lemma LayerAxis()
    ensures Cross([("M_layer_one", Rows1(99))]) == Rows(99)
  {
    var rest: seq<Dict> := [[]];
    assert [("M_layer_one", Rows1(99))][1..] == [];
    assert Cross([("M_layer_one", Rows1(99))]) == Extend("M_layer_one", Rows1(99), rest);
    ExtendShape("M_layer_one", Rows1(99), rest);
    forall i | 0 <= i < 99 ensures Cross([("M_layer_one", Rows1(99))])[i] == Rows(99)[i] {
      assert i * |rest| + 0 == i;
      assert [("M_layer_one", Rows1(99)[i])] + rest[0] == Rows(99)[i];
    }
  }

  /** The grid of 200 x 99 points keeps exactly the 99 with
      `M = 200 - M_layer_one`, in grid order: `M` = 2, 4, ..., 198. */
  lemma HierarchicalGrid()
    ensures GridAxes(HierarchicalRanges).Ok?
    ensures var kept := Screen(HierarchicalFilter, Cross(GridAxes(HierarchicalRanges).value));
            kept.Ok? && |kept.value| == 99 &&
            forall k :: 0 <= k < 99 ==> kept.value[k] == [("M", IntV(2 * k + 2)), ("M_layer_one", IntV(198 - 2 * k))]
  {
    HierarchicalAxes();
    var axes := [("M", IntVs(Span(1, 200))), ("M_layer_one", Rows1(99))];
    assert axes[1..] == [("M_layer_one", Rows1(99))];
    LayerAxis();
    assert Cross(axes) == Extend("M", IntVs(Span(1, 200)), Rows(99));
    GridScreen(Span(1, 200));
    HitsFrom(0);
  }
}
