/** `FitExperimentSequentialSubjectAll`: one subject's sequential recall
    data, with one sampler per (number of items, recalled position) pair,
    built once and cached, a named cache of response sets per pair, and the
    datapoint mask that restricts every set to the same trials. Loading the
    data and building a sampler are outside the model: the data arrive as
    a map, and a sampler is represented by what it is built from (the
    masked stimuli) and the responses it currently holds. */
module SequentialFit {
  import opened Common

  /** A (number of items `T`, recalled position `trecall`) pair. */
  type Pair = (int, int)

  /** The features of the items of one trial. */
  type Stimulus = seq<real>

  /** `experiment_data_to_fit[T][trecall]`: the trials' item features and
      the subject's responses, one per trial. */
  datatype Subset = Subset(features: seq<Stimulus>, responses: seq<real>)

  /** `filter_datapoints_mask`: an index array, or `slice(0, n)`. */
  datatype Mask = Picks(indices: seq<int>) | Leading(n: nat)

  /** The filtering options of the parameters: `filter_datapoints_mask`,
      `filter_datapoints_size`, `filter_datapoints_selection`. */
  datatype FilterOptions = FilterOptions(mask: Option<seq<int>>, size: Option<real>, selection: Option<string>)

  /** A sampler: the masked stimuli it was built on and its current
      responses (`theta`). */
  datatype Sampler = Sampler(stimuli: seq<Stimulus>, theta: seq<real>)

  /** What a function applied to the experiment sees of it. */
  datatype Probe = Probe(t: int, trecall: int, sampler: Option<Sampler>, numDatapoints: nat)

  /** numpy's reading of index `i` into `n` elements: negative indices
      count from the end. */
  predicate InRange(i: int, n: nat)
  {
    -(n as int) <= i < n
  }

  function Wrap(i: int, n: nat): (k: nat)
    requires InRange(i, n)
    ensures k < n && (k == i || k == i + n)
  {
    if i < 0 then i + n else i
  }

  /** Indexing with the mask never fails on `n` elements. */
  predicate MaskFits(m: Mask, n: nat)
  {
    m.Picks? ==> forall k :: 0 <= k < |m.indices| ==> InRange(m.indices[k], n)
  }

  /** `xs[mask]`: the picked elements in the mask's order, or the first
      `n` (all of them when there are fewer). */
  function Select<X>(xs: seq<X>, m: Mask): (r: seq<X>)
    requires MaskFits(m, |xs|)
    ensures m.Picks? ==> (|r| == |m.indices| &&
                          forall k :: 0 <= k < |r| ==> r[k] == xs[Wrap(m.indices[k], |xs|)])
    ensures m.Leading? ==> r == xs[..if m.n < |xs| then m.n else |xs|]
  {
    match m
    case Leading(n) => xs[..if n < |xs| then n else |xs|]
    case Picks(ix) => Pick(xs, ix)
  }

  function Pick<X>(xs: seq<X>, ix: seq<int>): (r: seq<X>)
    requires forall k :: 0 <= k < |ix| ==> InRange(ix[k], |xs|)
    ensures |r| == |ix| && forall k :: 0 <= k < |r| ==> r[k] == xs[Wrap(ix[k], |xs|)]
  {
    if ix == [] then [] else [xs[Wrap(ix[0], |xs|)]] + Pick(xs, ix[1..])
  }

  /** `np.arange(k)`. */
  function Range(k: nat): (r: seq<int>)
    ensures |r| == k && forall i :: 0 <= i < k ==> r[i] == i
  {
    if k == 0 then [] else Range(k - 1) + [k - 1]
  }

  /** The number of datapoints a mask keeps (`mask.size`). */
  function MaskSize(m: Mask): nat
  {
    match m
    case Picks(ix) => |ix|
    case Leading(n) => n
  }

  /** What `np.random.permutation(np.arange(n))` returns. */
  predicate IsPermutation(perm: seq<int>, n: nat)
  {
    |perm| == n && Distinct(perm) && forall k :: 0 <= k < n ==> 0 <= perm[k] < n
  }

  /** How many datapoints a selection of relative or absolute `size` keeps
      out of `n`: `int(size)` (capped at `n`) above 1, `floor(n*size)` at
      or below it. */
  function SelectionCount(size: real, n: nat): (k: nat)
    requires size > 0.0
    ensures k <= n
    ensures size > 1.0 ==> k as real <= size < k as real + 1.0 || k == n < Trunc(size)
    ensures size <= 1.0 ==> k as real <= n as real * size < k as real + 1.0
  {
    if size > 1.0 then (if n < Trunc(size) then n else Trunc(size))
    else
      SizeFractionBound(n, size);
      (n as real * size).Floor
  }

  lemma SizeFractionBound(n: nat, size: real)
    requires 0.0 < size <= 1.0
    ensures 0.0 <= n as real * size <= n as real
  {
  }

  /** `init_filter_datapoints`: the mask and the new `num_datapoints`,
      given the dataset's `n` and the permutation a random selection
      draws. An unknown selection method never sets the mask, so reading
      its size fails. */
  function FilterDatapoints(opts: FilterOptions, n: nat, perm: seq<int>): (r: Result<(Mask, nat)>)
    requires IsPermutation(perm, n)
    ensures r.Err? <==> opts.mask.None? && opts.size.Some? && opts.size.value > 0.0 &&
                        opts.selection.Some? && opts.selection.value !in ["sequential", "random"]
    ensures r.Ok? ==> r.value.1 == MaskSize(r.value.0)
    ensures opts.mask.Some? ==> r == Ok((Picks(opts.mask.value), |opts.mask.value|))
    ensures opts.mask.None? && (opts.size.None? || opts.size.value <= 0.0) ==> r == Ok((Leading(n), n))
    ensures r.Ok? && opts.mask.None? ==> r.value.1 <= n
  {
    if opts.mask.Some? then Ok((Picks(opts.mask.value), |opts.mask.value|))
    else if opts.size.Some? && opts.size.value > 0.0 then
      var how := if opts.selection.Some? then opts.selection.value else "sequential";
      var k := SelectionCount(opts.size.value, n);
      if how == "sequential" then Ok((Picks(Range(k)), k))
      else if how == "random" then Ok((Picks(perm[..k]), k))
      else Err("AttributeError")
    else Ok((Leading(n), n))
  }

  /** A sequential selection keeps the first `k` datapoints, `k` being
      `min(n, int(size))` above 1 and `floor(n*size)` otherwise. */
  lemma {:induction false} SequentialMask(opts: FilterOptions, n: nat, perm: seq<int>)
    requires IsPermutation(perm, n)
    requires opts.mask.None? && opts.size.Some? && opts.size.value > 0.0
    requires opts.selection.None? || opts.selection.value == "sequential"
    ensures var r := FilterDatapoints(opts, n, perm);
            var k := SelectionCount(opts.size.value, n);
            r.Ok? && r.value.0 == Picks(Range(k)) && r.value.1 == k
    ensures opts.size.value > 1.0 ==> SelectionCount(opts.size.value, n) == if n < Trunc(opts.size.value) then n else Trunc(opts.size.value)
  {
  }

  /** Whatever mask the options produce without an explicit one, it picks
      distinct datapoints and fits any data set of at least `n` trials. */
  lemma {:induction false} ComputedMaskFits(opts: FilterOptions, n: nat, perm: seq<int>, len: nat)
    requires IsPermutation(perm, n) && opts.mask.None? && n <= len
    requires FilterDatapoints(opts, n, perm).Ok?
    ensures var m := FilterDatapoints(opts, n, perm).value.0;
            MaskFits(m, len) && (m.Picks? ==> Distinct(m.indices) && forall k :: 0 <= k < |m.indices| ==> 0 <= m.indices[k] < n)
  {
    var m := FilterDatapoints(opts, n, perm).value.0;
    if m.Picks? {
      var k := |m.indices|;
      assert k <= n;
      forall i | 0 <= i < k
        ensures 0 <= m.indices[i] < n
      {
        if m.indices != Range(k) {
          assert m.indices == perm[..k];
          assert m.indices[i] == perm[i];
        }
      }
      assert Distinct(m.indices) by {
        if m.indices != Range(k) {
          assert m.indices == perm[..k];
        }
      }
    }
  }

  /** `(T, 1), ..., (T, n)`. */
  function Recalls(t: int, n: nat): (r: seq<Pair>)
    ensures |r| == n && forall k :: 0 <= k < n ==> r[k] == (t, k + 1)
  {
    if n == 0 then [] else Recalls(t, n - 1) + [(t, n)]
  }

  /** The pairs `apply_fct_datasets_all` visits: every `T` of `T_space` in
      order, and for each `trecall` from 1 to `T`. */
  function Pairs(ts: seq<int>): seq<Pair>
  {
    if ts == [] then []
    else
      var t := ts[|ts| - 1];
      Pairs(ts[..|ts| - 1]) + Recalls(t, if t > 0 then t else 0)
  }

  /** A pair is visited iff its `T` is in `T_space` and `1 <= trecall <= T`. */
  lemma {:induction false} PairsMembers(ts: seq<int>, p: Pair)
    ensures p in Pairs(ts) <==> p.0 in ts && 1 <= p.1 <= p.0
  {
    if ts != [] {
      var t := ts[|ts| - 1];
      var front := ts[..|ts| - 1];
      PairsMembers(front, p);
      assert ts == front + [t];
      var rs := Recalls(t, if t > 0 then t else 0);
      if p.0 == t && 1 <= p.1 <= p.0 {
        assert rs[p.1 - 1] == p;
      }
    }
  }

  /** With distinct sizes, no pair is visited twice. */
  lemma {:induction false} PairsDistinct(ts: seq<int>)
    requires Distinct(ts)
    ensures Distinct(Pairs(ts))
  {
    if ts != [] {
      var t := ts[|ts| - 1];
      var front := ts[..|ts| - 1];
      assert Distinct(front);
      PairsDistinct(front);
      var ps := Pairs(front);
      var rs := Recalls(t, if t > 0 then t else 0);
      forall i, j | 0 <= i < j < |ps + rs|
        ensures (ps + rs)[i] != (ps + rs)[j]
      {
        if i < |ps| && j >= |ps| {
          PairsMembers(front, ps[i]);
          assert ps[i].0 in front;
          assert t !in front by {
            assert ts == front + [t];
          }
        }
      }
    }
  }

  /** The parameters a sampler for `(t, trecall)` is built with: `T`, `N`
      and `fixed_cued_feature_time` are overwritten. */
  function SetupParameters(d: Dict, t: int, trecall: int, n: nat): Dict
  {
    Set(Set(Set(d, "T", IntV(t)), "N", IntV(n)), "fixed_cued_feature_time", IntV(trecall - 1))
  }

  /** The build parameters hold `T = t`, `N = n` and the cued time
      `trecall - 1`; every other parameter keeps its value. */
  lemma SetupParametersLookup(d: Dict, t: int, trecall: int, n: nat, k: string)
    ensures Lookup(SetupParameters(d, t, trecall, n), k) ==
              if k == "fixed_cued_feature_time" then Some(IntV(trecall - 1))
              else if k == "N" then Some(IntV(n))
              else if k == "T" then Some(IntV(t))
              else Lookup(d, k)
  {
    SetLookup(d, "T", IntV(t), k);
    SetLookup(Set(d, "T", IntV(t)), "N", IntV(n), k);
    SetLookup(Set(Set(d, "T", IntV(t)), "N", IntV(n)), "fixed_cued_feature_time", IntV(trecall - 1), k);
  }

  /** A sampler built on the masked stimuli of a data set. */
  predicate BuiltFrom(s: Sampler, d: Subset, m: Mask)
  {
    MaskFits(m, |d.features|) && s.stimuli == Select(d.features, m)
  }

  /** `Built` on the values of the fields: the mask fits every data set;
      every cached sampler was built on its pair's masked stimuli; the
      current sampler is one of them. */
  ghost predicate BuiltOn(data: map<Pair, Subset>, mask: Mask, samplers: map<Pair, Sampler>, current: Option<Pair>)
  {
    (forall p :: p in data ==> MaskFits(mask, |data[p].features|) && MaskFits(mask, |data[p].responses|)) &&
    (forall p :: p in samplers ==> p in data && BuiltFrom(samplers[p], data[p], mask)) &&
    (current.Some? ==> current.value in samplers)
  }

  /** Caching a sampler built on a pair's masked stimuli, and making it the
      current one, keeps `BuiltOn`. */
  lemma BuiltOnAdd(data: map<Pair, Subset>, mask: Mask, samplers: map<Pair, Sampler>, current: Option<Pair>,
                   p: Pair, s: Sampler)
    requires BuiltOn(data, mask, samplers, current)
    requires p in data && BuiltFrom(s, data[p], mask)
    ensures BuiltOn(data, mask, samplers[p := s], Some(p))
  {
    forall q | q in samplers[p := s] ensures q in data && BuiltFrom(samplers[p := s][q], data[q], mask) {
      if q != p {
        assert samplers[p := s][q] == samplers[q];
      }
    }
  }

  /** The probe of a built pair. */
  function ProbeAt(samplers: map<Pair, Sampler>, n: nat, p: Pair): Probe
    requires p in samplers
  {
    Probe(p.0, p.1, Some(samplers[p]), n)
  }

  /** Samplers are only ever added: every sampler of `s0` is in `s1`,
      unchanged. */
  ghost predicate Grows(s0: map<Pair, Sampler>, s1: map<Pair, Sampler>)
  {
    forall q :: q in s0 ==> q in s1 && s1[q] == s0[q]
  }

  /** `results[k]` is what `fct` returned on the sampler of `pairs[k]`. */
  ghost predicate Produced<R>(results: seq<R>, pairs: seq<Pair>, s: map<Pair, Sampler>, n: nat, fct: Probe -> R)
  {
    |results| == |pairs| &&
    forall k :: 0 <= k < |results| ==> pairs[k] in s && results[k] == fct(ProbeAt(s, n, pairs[k]))
  }

  lemma ProducedSnoc<R>(results: seq<R>, pairs: seq<Pair>, s: map<Pair, Sampler>, n: nat, fct: Probe -> R,
                        p: Pair, x: R)
    requires Produced(results, pairs, s, n, fct) && p in s && x == fct(ProbeAt(s, n, p))
    ensures Produced(results + [x], pairs + [p], s, n, fct)
  {
  }

  lemma ProducedAppend<R>(results: seq<R>, pairs: seq<Pair>, more: seq<R>, morePairs: seq<Pair>,
                          s: map<Pair, Sampler>, n: nat, fct: Probe -> R)
    requires Produced(results, pairs, s, n, fct) && Produced(more, morePairs, s, n, fct)
    ensures Produced(results + more, pairs + morePairs, s, n, fct)
  {
  }

  /** The results for one more `T` of `T_space`, on samplers that only
      grew, extend the results for the earlier ones. */
  lemma ProducedNextT<R>(results: seq<R>, ts: seq<int>, i: nat, s0: map<Pair, Sampler>, s1: map<Pair, Sampler>,
                         n: nat, fct: Probe -> R, more: seq<R>)
    requires i < |ts| && Produced(results, Pairs(ts[..i]), s0, n, fct) && Grows(s0, s1)
    requires Produced(more, Recalls(ts[i], if ts[i] > 0 then ts[i] else 0), s1, n, fct)
    ensures Produced(results + more, Pairs(ts[..i + 1]), s1, n, fct)
  {
    assert ts[..i + 1][..i] == ts[..i];
    ProducedGrows(results, Pairs(ts[..i]), s0, s1, n, fct);
    ProducedAppend(results, Pairs(ts[..i]), more, Recalls(ts[i], if ts[i] > 0 then ts[i] else 0), s1, n, fct);
  }

  /** Samplers added later leave earlier results valid. */
  lemma ProducedGrows<R>(results: seq<R>, pairs: seq<Pair>, s0: map<Pair, Sampler>, s1: map<Pair, Sampler>,
                         n: nat, fct: Probe -> R)
    requires Produced(results, pairs, s0, n, fct) && Grows(s0, s1)
    ensures Produced(results, pairs, s1, n, fct)
  {
    forall k | 0 <= k < |results|
      ensures pairs[k] in s1 && results[k] == fct(ProbeAt(s1, n, pairs[k]))
    {
      assert ProbeAt(s1, n, pairs[k]) == ProbeAt(s0, n, pairs[k]);
    }
  }

  /** The experiment, after loading and filtering. */
  class SequentialFitExperiment {
    /** `T_space`. */
    const tSpace: seq<int>
    const data: map<Pair, Subset>
    const mask: Mask
    const numDatapoints: nat
    var parameters: Dict
    var enforcedT: int
    var enforcedTrecall: int
    /** Which cached sampler `self.sampler` is, if any. */
    var current: Option<Pair>
    /** `all_samplers`. */
    var samplers: map<Pair, Sampler>
    /** `cache_responses`. */
    var cache: map<Pair, map<string, seq<real>>>

    /** The mask fits every data set; every cached sampler was built
        once, on its pair's masked stimuli; `self.sampler` is one of them. */
    ghost predicate Built()
      reads this
    {
      BuiltOn(data, mask, samplers, current)
    }

    /** `self.sampler` is the enforced pair's sampler whenever that one is
        built; the enforced pair lacks one only before the first setup or
        when its data are missing. */
    ghost predicate Valid()
      reads this
    {
      Built() &&
      ((enforcedT, enforcedTrecall) in samplers ==> current == Some((enforcedT, enforcedTrecall))) &&
      ((enforcedT, enforcedTrecall) !in samplers && (enforcedT, enforcedTrecall) != (-1, -1) ==>
         (enforcedT, enforcedTrecall) !in data)
    }

    constructor (tSpace: seq<int>, data: map<Pair, Subset>, mask: Mask, numDatapoints: nat, parameters: Dict)
      requires forall p :: p in data ==> MaskFits(mask, |data[p].features|) && MaskFits(mask, |data[p].responses|)
      ensures Valid()
      ensures this.tSpace == tSpace && this.data == data && this.mask == mask
      ensures this.numDatapoints == numDatapoints && this.parameters == parameters
      ensures enforcedT == -1 && enforcedTrecall == -1 && current.None?
      ensures samplers == map[] && cache == map[]
    {
      this.tSpace, this.data, this.mask, this.numDatapoints := tSpace, data, mask, numDatapoints;
      this.parameters := parameters;
      enforcedT, enforcedTrecall := -1, -1;
      current := None;
      samplers, cache := map[], map[];
    }

    /** `get_names_stored_responses`: the names cached for the enforced
        pair; none cached yet for it is a `KeyError`. */
    function NamesStored(): (r: Result<set<string>>)
      reads this
      ensures r.Ok? <==> (enforcedT, enforcedTrecall) in cache
      ensures r.Ok? ==> forall name :: name in r.value <==> name in cache[(enforcedT, enforcedTrecall)]
    {
      var p := (enforcedT, enforcedTrecall);
      if p in cache then Ok(cache[p].Keys) else Err("KeyError")
    }

    /** The theta of `self.sampler`, if there is one. */
    function Theta(): Option<seq<real>>
      reads this
    {
      if current.Some? && current.value in samplers then Some(samplers[current.value].theta) else None
    }

    /** What a function applied now sees. */
    function Now(): Probe
      reads this
    {
      Probe(enforcedT, enforcedTrecall,
            if current.Some? && current.value in samplers then Some(samplers[current.value]) else None,
            numDatapoints)
    }

    /** `store_responses`: a copy of the current sampler's responses under
        `name` for the enforced pair; with no sampler yet, the call fails. */
    method StoreResponses(name: string) returns (err: Option<string>)
      requires Valid()
      modifies this`cache
      ensures Valid()
      ensures err.Some? <==> old(Theta()).None?
      ensures err.Some? ==> cache == old(cache)
      ensures err.None? ==>
                var p := (enforcedT, enforcedTrecall);
                p in cache && name in cache[p] && cache[p][name] == old(Theta()).value &&
                cache[p].Keys == (if p in old(cache) then old(cache[p]).Keys else {}) + {name} &&
                (forall n :: n in cache[p] && n != name ==> cache[p][n] == old(cache[p][n])) &&
                (forall q :: q != p ==> (q in cache <==> q in old(cache)) && (q in cache ==> cache[q] == old(cache[q])))
    {
      var theta := Theta();
      if theta.None? {
        return Some("AttributeError");
      }
      err := None;
      var p := (enforcedT, enforcedTrecall);
      var names := if p in cache then cache[p] else map[];
      cache := cache[p := names[name := theta.value]];
    }

    /** `restore_responses`: the current sampler takes back the responses
        stored under `name` for the enforced pair. A pair with nothing
        stored is a `KeyError`, an unknown name an `AssertionError`. */
    method RestoreResponses(name: string) returns (err: Option<string>)
      requires Valid()
      modifies this`samplers
      ensures Valid()
      ensures var p := (enforcedT, enforcedTrecall);
              err == if p !in cache then Some("KeyError")
                     else if name !in cache[p] then Some("AssertionError")
                     else if old(Theta()).None? then Some("AttributeError")
                     else None
      ensures err.Some? ==> samplers == old(samplers)
      ensures err.None? ==>
                Theta() == Some(cache[(enforcedT, enforcedTrecall)][name]) &&
                samplers.Keys == old(samplers).Keys &&
                samplers[current.value].stimuli == old(samplers)[current.value].stimuli &&
                forall q :: q in samplers && q != current.value ==> samplers[q] == old(samplers)[q]
    {
      var p := (enforcedT, enforcedTrecall);
      if p !in cache {
        return Some("KeyError");
      }
      if name !in cache[p] {
        return Some("AssertionError");
      }
      if current.None? {
        return Some("AttributeError");
      }
      err := None;
      var c := current.value;
      samplers := samplers[c := samplers[c].(theta := cache[p][name])];
    }

    /** `setup_experimental_stimuli`: `T` must be in `T_space`; the same
        pair as the enforced one changes nothing. A new pair becomes the
        enforced one; its sampler is reused if it was built before, and
        otherwise built on the masked stimuli with the subject's masked
        responses, which are also stored as `'human'`. The parameters get
        `T`, `N` and the cued time before the data are read, so missing
        data leave them updated. */
    method SetupExperimentalStimuli(t: int, trecall: int) returns (err: Option<string>)
      requires Valid()
      modifies this`enforcedT, this`enforcedTrecall, this`current, this`samplers, this`cache,
               this`parameters
      ensures Valid()
      ensures var p := (t, trecall);
              err == if t !in tSpace then Some("AssertionError")
                     else if p != old((enforcedT, enforcedTrecall)) && p !in old(samplers) && p !in data
                     then Some("KeyError")
                     else None
      ensures t !in tSpace || (t, trecall) == old((enforcedT, enforcedTrecall)) ==>
                enforcedT == old(enforcedT) && enforcedTrecall == old(enforcedTrecall) &&
                current == old(current) && samplers == old(samplers) && cache == old(cache) &&
                parameters == old(parameters)
      ensures t in tSpace ==> enforcedT == t && enforcedTrecall == trecall
      ensures Grows(old(samplers), samplers)
      ensures t in tSpace && (t, trecall) in old(samplers) ==>
                samplers == old(samplers) && cache == old(cache) &&
                parameters == old(parameters)
      ensures t in tSpace && (t, trecall) != old((enforcedT, enforcedTrecall)) && (t, trecall) !in old(samplers) ==>
                parameters == SetupParameters(old(parameters), t, trecall, numDatapoints)
      ensures err.None? && (t, trecall) !in old(samplers) && (t, trecall) in samplers ==>
                var p := (t, trecall);
                var human := Select(data[p].responses, mask);
                samplers == old(samplers)[p := Sampler(Select(data[p].features, mask), human)] &&
                cache == old(cache)[p := (if p in old(cache) then old(cache[p]) else map[])["human" := human]]
      ensures err.Some? ==> samplers == old(samplers) && cache == old(cache) && current == old(current)
      ensures err.None? && (t, trecall) in data && (t, trecall) != (-1, -1) ==>
                (t, trecall) in samplers && current == Some((t, trecall))
    {
      if t !in tSpace {
        return Some("AssertionError");
      }
      err := None;
      var p := (t, trecall);
      if p != (enforcedT, enforcedTrecall) {
        enforcedT, enforcedTrecall := t, trecall;
        if p !in samplers {
          err := Build(p);
        } else {
          current := Some(p);
        }
      }
    }

    /** The first setup of the enforced pair `p`: the parameters get `T`,
        `N` and the cued time (`trecall - 1`); then, if the data hold the
        pair, its sampler is built on the masked stimuli, takes the masked
        human responses, and stores them as `'human'`. */
    method Build(p: Pair) returns (err: Option<string>)
      requires Built() && p == (enforcedT, enforcedTrecall) && p !in samplers
      modifies this`current, this`samplers, this`cache, this`parameters
      ensures Valid()
      ensures parameters == SetupParameters(old(parameters), p.0, p.1, numDatapoints)
      ensures err == if p in data then None else Some("KeyError")
      ensures err.Some? ==> samplers == old(samplers) && cache == old(cache) && current == old(current)
      ensures err.None? ==>
                var human := Select(data[p].responses, mask);
                current == Some(p) &&
                samplers == old(samplers)[p := Sampler(Select(data[p].features, mask), human)] &&
                cache == old(cache)[p := (if p in old(cache) then old(cache[p]) else map[])["human" := human]]
    {
      parameters := SetupParameters(parameters, p.0, p.1, numDatapoints);
      err := BuildSampler(p);
    }

    /** The sampler half of `Build`: a missing pair is a `KeyError` that
        changes nothing; otherwise the pair's sampler is built, made
        current, and its human responses cached. */
    method BuildSampler(p: Pair) returns (err: Option<string>)
      requires Built() && p == (enforcedT, enforcedTrecall) && p !in samplers
      modifies this`current, this`samplers, this`cache
      ensures Valid()
      ensures err == if p in data then None else Some("KeyError")
      ensures err.Some? ==> samplers == old(samplers) && cache == old(cache) && current == old(current)
      ensures err.None? ==>
                var human := Select(data[p].responses, mask);
                current == Some(p) &&
                samplers == old(samplers)[p := Sampler(Select(data[p].features, mask), human)] &&
                cache == old(cache)[p := (if p in old(cache) then old(cache[p]) else map[])["human" := human]]
    {
      if p !in data {
        return Some("KeyError");
      }
      err := None;
      var stimuli := Select(data[p].features, mask);
      var human := Select(data[p].responses, mask);
      var names := if p in cache then cache[p] else map[];
      cache := cache[p := names["human" := human]];
      BuiltOnAdd(data, mask, samplers, current, p, Sampler(stimuli, human));
      samplers := samplers[p := Sampler(stimuli, human)];
      current := Some(p);
    }

    /** `apply_fct_dataset`: set the pair up, then apply `fct` to what the
        experiment now holds. */
    method ApplyFctDataset<R>(t: int, trecall: int, fct: Probe -> R) returns (r: Result<R>)
      requires Valid()
      modifies this`enforcedT, this`enforcedTrecall, this`current, this`samplers, this`cache,
               this`parameters
      ensures Valid()
      ensures Grows(old(samplers), samplers)
      ensures r.Err? ==> t !in tSpace || (t, trecall) !in data
      ensures r.Ok? ==> r.value == fct(Now())
      ensures r.Ok? ==> enforcedT == t && enforcedTrecall == trecall
      ensures r.Ok? && (t, trecall) in data && (t, trecall) != (-1, -1) ==>
                (t, trecall) in samplers && current == Some((t, trecall)) &&
                r.value == fct(ProbeAt(samplers, numDatapoints, (t, trecall)))
      ensures t in tSpace && (t, trecall) in data ==> r.Ok?
    {
      var err := SetupExperimentalStimuli(t, trecall);
      if err.Some? {
        return Err(err.value);
      }
      r := Ok(fct(Now()));
    }

    /** The inner loop of `apply_fct_datasets_all`: `fct` applied after
        setting up `(t, 1)`, ..., `(t, t)` in turn. */
    method ApplyRecalls<R>(t: int, fct: Probe -> R) returns (r: Result<seq<R>>)
      requires Valid() && t in tSpace
      modifies this`enforcedT, this`enforcedTrecall, this`current, this`samplers, this`cache,
               this`parameters
      ensures Valid() && Grows(old(samplers), samplers)
      ensures r.Err? ==> exists k :: 1 <= k <= t && (t, k) !in data
      ensures (forall k :: 1 <= k <= t ==> (t, k) in data) ==>
                r.Ok? && Produced(r.value, Recalls(t, if t > 0 then t else 0), samplers, numDatapoints, fct)
    {
      var results: seq<R> := [];
      ghost var complete := forall k :: 1 <= k <= t ==> (t, k) in data;
      var trecall := 1;
      while trecall <= t
        invariant 1 <= trecall && (if t > 0 then trecall <= t + 1 else trecall == 1)
        invariant Valid() && Grows(old(samplers), samplers)
        invariant complete ==> Produced(results, Recalls(t, trecall - 1), samplers, numDatapoints, fct)
      {
        ghost var before := samplers;
        var x := ApplyFctDataset(t, trecall, fct);
        if x.Err? {
          return Err(x.error);
        }
        if complete {
          assert (t, trecall) in data;
          ProducedGrows(results, Recalls(t, trecall - 1), before, samplers, numDatapoints, fct);
          ProducedSnoc(results, Recalls(t, trecall - 1), samplers, numDatapoints, fct, (t, trecall), x.value);
        }
        results := results + [x.value];
        trecall := trecall + 1;
      }
      assert trecall - 1 == if t > 0 then t else 0;
      r := Ok(results);
    }

    /** `apply_fct_datasets_all`: `fct` applied once per visited pair, in
        the order of `Pairs(T_space)`, each time on that pair's sampler:
        the k-th result is `fct` on the k-th pair. */
    method ApplyFctDatasetsAll<R>(fct: Probe -> R) returns (r: Result<seq<R>>)
      requires Valid()
      modifies this`enforcedT, this`enforcedTrecall, this`current, this`samplers, this`cache,
               this`parameters
      ensures Valid() && Grows(old(samplers), samplers)
      ensures r.Err? ==> exists p :: p in Pairs(tSpace) && p !in data
      ensures (forall p :: p in Pairs(tSpace) ==> p in data) ==>
                r.Ok? && Produced(r.value, Pairs(tSpace), samplers, numDatapoints, fct)
    {
      var results: seq<R> := [];
      ghost var complete := forall p :: p in Pairs(tSpace) ==> p in data;
      var i := 0;
      while i < |tSpace|
        invariant 0 <= i <= |tSpace|
        invariant Valid() && Grows(old(samplers), samplers)
        invariant complete ==> Produced(results, Pairs(tSpace[..i]), samplers, numDatapoints, fct)
      {
        var t := tSpace[i];
        ghost var before := samplers;
        var x := ApplyRecalls(t, fct);
        if x.Err? {
          ghost var k :| 1 <= k <= t && (t, k) !in data;
          PairsMembers(tSpace, (t, k));
          return Err(x.error);
        }
        if complete {
          forall k | 1 <= k <= t
            ensures (t, k) in data
          {
            PairsMembers(tSpace, (t, k));
          }
          ProducedNextT(results, tSpace, i, before, samplers, numDatapoints, fct, x.value);
        }
        results := results + x.value;
        i := i + 1;
      }
      assert tSpace[..i] == tSpace;
      r := Ok(results);
    }
  }

  /** Construction after loading the subject's data: `init_filter_datapoints`
      picks the mask and the number of datapoints (an unknown selection
      method fails), and nothing is set up yet. `smallestN` is the
      subject's smallest trial count, so no data set is shorter. */
  method Create(tSpace: seq<int>, data: map<Pair, Subset>, smallestN: nat, opts: FilterOptions, perm: seq<int>,
                parameters: Dict)
    returns (r: Result<SequentialFitExperiment>)
    requires IsPermutation(perm, smallestN)
    requires forall p :: p in data ==> smallestN <= |data[p].features| && smallestN <= |data[p].responses|
    requires opts.mask.Some? ==>
               forall p :: p in data ==> MaskFits(Picks(opts.mask.value), |data[p].features|) &&
                                         MaskFits(Picks(opts.mask.value), |data[p].responses|)
    ensures r.Err? <==> FilterDatapoints(opts, smallestN, perm).Err?
    ensures r.Ok? ==>
              fresh(r.value) && r.value.Valid() &&
              (r.value.mask, r.value.numDatapoints) == FilterDatapoints(opts, smallestN, perm).value &&
              r.value.tSpace == tSpace && r.value.data == data && r.value.parameters == parameters &&
              r.value.samplers == map[] && r.value.cache == map[] && r.value.current.None?
  {
    var f := FilterDatapoints(opts, smallestN, perm);
    if f.Err? {
      return Err(f.error);
    }
    var mask := f.value.0;
    forall p | p in data
      ensures MaskFits(mask, |data[p].features|) && MaskFits(mask, |data[p].responses|)
    {
      if opts.mask.None? {
        ComputedMaskFits(opts, smallestN, perm, |data[p].features|);
        ComputedMaskFits(opts, smallestN, perm, |data[p].responses|);
      }
    }
    var e := new SequentialFitExperiment(tSpace, data, mask, f.value.1, parameters);
    r := Ok(e);
  }
}
