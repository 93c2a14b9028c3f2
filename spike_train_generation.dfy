/** Renewal-process spike trains over a half-open window [tStart, tStop).
    Times are exact reals in the window's unit. `unitRatio` is the number of
    window time units in one reciprocal rate unit (1000 for a rate in Hz and
    times in ms): a drawn interval `x` becomes `x * unitRatio`, and the
    expected event count is `(tStop - tStart) * meanRate / unitRatio`.
    The random interval primitive is the parameter `generator`, which gives
    the stream of draws for a distribution law; the bulk draw takes its first
    `size` values and every top-up the next one. */
module SpikeTrainGeneration {
  import opened Cumulative

  function Min(a: int, b: int): int { if a <= b then a else b }

  function Max(a: int, b: int): int { if a <= b then b else a }

  /** The distribution of the inter-spike intervals, with the arguments the
      adapters hand to the sampling primitive. */
  datatype IntervalLaw =
    | Exponential(meanInterval: real)  // numpy.random.exponential(scale)
    | Gamma(k: real, theta: real)      // numpy.random.gamma(shape, scale)

  /** The mean of one interval under the law. */
  function MeanInterval(law: IntervalLaw): real {
    match law
    case Exponential(mean) => mean
    case Gamma(k, theta) => k * theta
  }

  /** What an adapter passes to the sampler: the interval law and the mean rate. */
  datatype ProcessParams = ProcessParams(law: IntervalLaw, meanRate: real)

  /** The two output representations the `as_array` flag chooses between. */
  datatype SpikeData =
    | Magnitudes(values: seq<real>)
    | SpikeTrain(times: seq<real>, tStart: real, tStop: real)
  {
    function Values(): seq<real> {
      match this
      case Magnitudes(v) => v
      case SpikeTrain(t, _, _) => t
    }
  }

  /** The sampler's result: the spike data and the number of draws it took
      from the stream, or `Exhausted` when the finite stream ran out before
      the window was covered. */
  datatype Outcome = Generated(data: SpikeData, consumed: nat) | Exhausted

  // ---------------------------------------------------------------------
  // Buffer sizing

  /** ceil(sqrt(m)) in integers: the least k with k * k >= m. */
  function CeilSqrt(m: nat): (k: nat)
    ensures k * k >= m
    ensures k == 0 || (k - 1) * (k - 1) < m
  {
    CeilSqrtFrom(m, 0)
  }

  function CeilSqrtFrom(m: nat, k: nat): (r: nat)
    requires k <= m
    requires k == 0 || (k - 1) * (k - 1) < m
    ensures r * r >= m
    ensures r == 0 || (r - 1) * (r - 1) < m
    decreases m - k
  {
    if k * k >= m then k
    else
      assert k <= k * k;
      CeilSqrtFrom(m, k + 1)
  }

  /** `int((t_stop - t_start) * mean_rate)`: the argument is never negative,
      so truncation is the floor. */
  function ExpectedCount(tStart: real, tStop: real, meanRate: real, unitRatio: real): (n: nat)
    requires tStart <= tStop && meanRate > 0.0 && unitRatio > 0.0
    ensures n as real <= (tStop - tStart) * meanRate / unitRatio < n as real + 1.0
  {
    var x := (tStop - tStart) * meanRate / unitRatio;
    assert x >= 0.0;
    x.Floor
  }

  /** The number of intervals drawn in bulk for `n` expected events:
      `ceil(n + 3 * sqrt(n))`, or `min(5 + ceil(2 * n), 100)` when that is
      below 100. The size is always above 4 (the sampler's assertion) and
      never below `n`. */
  function BufferSize(n: nat): (size: nat)
    ensures size >= 5
    ensures size >= n
  {
    var estimate := n + CeilSqrt(9 * n);
    if estimate < 100 then Min(5 + 2 * n, 100) else estimate
  }

  lemma SquareMonotone(a: nat, b: nat)
    requires a <= b
    ensures a * a <= b * b
  {
    assert a * a <= a * b <= b * b;
  }

  /** The buffer size in closed form: `5 + 2n` up to 47 expected events, the
      cap of 100 from 48 to 73, and `n + ceil(3 sqrt n)` (at least 100) from 74 on. */
  lemma BufferSizeByRange(n: nat)
    ensures n <= 47 ==> BufferSize(n) == 5 + 2 * n
    ensures 48 <= n <= 73 ==> BufferSize(n) == 100
    ensures n >= 74 ==> BufferSize(n) == n + CeilSqrt(9 * n) >= 100
  {
    var k := CeilSqrt(9 * n);
    if n <= 73 {
      if k >= 27 {
        SquareMonotone(26, k - 1);
        assert false;
      }
    } else if n < 100 {
      if k <= 25 {
        SquareMonotone(k, 25);
        assert false;
      }
    }
  }

  /** The bulk draw always covers the expected count plus three standard
      deviations of a Poisson count: size >= n + 3 * sqrt(n). */
  lemma BufferSizeCoversMargin(n: nat)
    ensures BufferSize(n) >= n
    ensures (BufferSize(n) - n) * (BufferSize(n) - n) >= 9 * n
  {
    var k := CeilSqrt(9 * n);
    var size := BufferSize(n);
    if n + k < 100 {
      if 5 + 2 * n <= 100 {
        assert (n + 5) * (n + 5) == n * n + n + 25 + 9 * n;
      } else {
        SquareMonotone(k, size - n);
      }
    }
  }

  // ---------------------------------------------------------------------
  // The sampler

  predicate SamplerArgs(draws: seq<real>, unitRatio: real, meanRate: real, tStart: real, tStop: real) {
    unitRatio > 0.0 && meanRate > 0.0 && tStart <= tStop && AllNonNegative(draws)
  }

  /** The size of the bulk draw for a window and rate: above 4, and more
      than the expected spike count less one. */
  function WindowBufferSize(tStart: real, tStop: real, meanRate: real, unitRatio: real): (size: nat)
    requires tStart <= tStop && meanRate > 0.0 && unitRatio > 0.0
    ensures size >= 5
    ensures (tStop - tStart) * meanRate / unitRatio < size as real + 1.0
  {
    BufferSize(ExpectedCount(tStart, tStop, meanRate, unitRatio))
  }

  /** Every candidate spike time the stream would give: the window start
      plus the running sums of the rescaled intervals. There is one per draw;
      for non-negative draws they are sorted and none is before `tStart`. */
  function Candidates(draws: seq<real>, unitRatio: real, tStart: real): (times: seq<real>)
    ensures |times| == |draws|
    ensures unitRatio > 0.0 && AllNonNegative(draws) ==>
      && NonDecreasing(times)
      && forall j :: 0 <= j < |times| ==> times[j] >= tStart
  {
    var times := Offset(CumSum(Rescale(draws, unitRatio)), tStart);
    if unitRatio > 0.0 && AllNonNegative(draws) then
      CandidateTimes(tStart, Rescale(draws, unitRatio));
      times
    else
      times
  }

  /** Wraps spike times as a bare array or as a spike train carrying the
      window; only the wrapping depends on `asArray`. */
  function Package(spikes: seq<real>, tStart: real, tStop: real, asArray: bool): (d: SpikeData)
    ensures d.Values() == spikes
    ensures d.Magnitudes? <==> asArray
    ensures d.SpikeTrain? ==> d.tStart == tStart && d.tStop == tStop
  {
    if asArray then Magnitudes(spikes) else SpikeTrain(spikes, tStart, tStop)
  }

  /** Reference definition of one realization: the candidate times before
      the first one at or past `tStop`. The stream must hold the whole bulk
      draw and reach `tStop`; the draws used are the bulk buffer, or every
      draw up to the first one that overshoots the window when that lies
      beyond the buffer. */
  function Realization(draws: seq<real>, unitRatio: real, meanRate: real,
                       tStart: real, tStop: real, asArray: bool): (r: Outcome)
    requires SamplerArgs(draws, unitRatio, meanRate, tStart, tStop)
    ensures r.Generated? ==> |r.data.Values()| < r.consumed <= |draws|
  {
    var size := WindowBufferSize(tStart, tStop, meanRate, unitRatio);
    var times := Candidates(draws, unitRatio, tStart);
    var k := SearchSorted(times, tStop);
    if |draws| < size || k == |draws| then Exhausted
    else Generated(Package(times[..k], tStart, tStop, asArray), Max(size, k + 1))
  }

  /** Each candidate after the first continues the previous one by exactly
      one rescaled draw. */
  lemma CandidateStep(draws: seq<real>, unitRatio: real, tStart: real, j: nat)
    requires 0 < j < |draws|
    ensures var times := Candidates(draws, unitRatio, tStart);
      |times| == |draws| && times[j] == times[j - 1] + draws[j] * unitRatio
  {
    var isi := Rescale(draws, unitRatio);
    assert isi[..j + 1][..j] == isi[..j];
  }

  /** The first candidate is one rescaled draw past the window start. */
  lemma CandidateFirst(draws: seq<real>, unitRatio: real, tStart: real)
    requires |draws| > 0
    ensures Candidates(draws, unitRatio, tStart)[0] == tStart + draws[0] * unitRatio
  {
    var isi := Rescale(draws, unitRatio);
    assert isi[..1][..0] == [];
    assert Sum(isi[..1]) == Sum(isi[..1][..0]) + isi[0];
  }

  /** The bulk buffer of `m` draws is the first `m` candidates. */
  lemma BulkIsPrefix(draws: seq<real>, unitRatio: real, tStart: real, m: nat)
    requires m <= |draws|
    ensures Offset(CumSum(Rescale(draws[..m], unitRatio)), tStart)
         == Candidates(draws, unitRatio, tStart)[..m]
  {
    assert forall j :: 0 <= j < m ==> Rescale(draws[..m], unitRatio)[j] == Rescale(draws, unitRatio)[j];
    assert Rescale(draws[..m], unitRatio) == Rescale(draws, unitRatio)[..m];
    CumSumPrefix(Rescale(draws, unitRatio), m);
  }

  /** The realization when candidate `k` is the first at or past `tStop`. */
  lemma RealizationCrossingAt(draws: seq<real>, unitRatio: real, meanRate: real,
                              tStart: real, tStop: real, asArray: bool, k: nat)
    requires SamplerArgs(draws, unitRatio, meanRate, tStart, tStop)
    requires WindowBufferSize(tStart, tStop, meanRate, unitRatio) <= |draws|
    requires k < |draws|
    requires forall j :: 0 <= j < k ==> Candidates(draws, unitRatio, tStart)[j] < tStop
    requires Candidates(draws, unitRatio, tStart)[k] >= tStop
    ensures Realization(draws, unitRatio, meanRate, tStart, tStop, asArray)
         == Generated(Package(Candidates(draws, unitRatio, tStart)[..k], tStart, tStop, asArray),
                      Max(WindowBufferSize(tStart, tStop, meanRate, unitRatio), k + 1))
  {
    var times := Candidates(draws, unitRatio, tStart);
    var i := SearchSorted(times, tStop);
    assert i == k;
  }

  /** The realization when every candidate of the stream lies before `tStop`. */
  lemma RealizationNoCrossing(draws: seq<real>, unitRatio: real, meanRate: real,
                              tStart: real, tStop: real, asArray: bool)
    requires SamplerArgs(draws, unitRatio, meanRate, tStart, tStop)
    requires forall j :: 0 <= j < |draws| ==> Candidates(draws, unitRatio, tStart)[j] < tStop
    ensures Realization(draws, unitRatio, meanRate, tStart, tStop, asArray) == Exhausted
  {
    var times := Candidates(draws, unitRatio, tStart);
    assert SearchSorted(times, tStop) == |draws|;
  }

  /** `times` are running times of the stream: each continues the previous
      one by exactly one rescaled draw. */
  ghost predicate RunningTimes(times: seq<real>, draws: seq<real>, unitRatio: real) {
    && |times| == |draws|
    && forall j :: 0 < j < |draws| ==> times[j] == times[j - 1] + draws[j] * unitRatio
  }

  lemma CandidatesAreRunningTimes(draws: seq<real>, unitRatio: real, tStart: real)
    ensures RunningTimes(Candidates(draws, unitRatio, tStart), draws, unitRatio)
  {
    forall j | 0 < j < |draws|
      ensures Candidates(draws, unitRatio, tStart)[j]
           == Candidates(draws, unitRatio, tStart)[j - 1] + draws[j] * unitRatio
    {
      CandidateStep(draws, unitRatio, tStart, j);
    }
  }

  /** The top-up loop of a buffer underrun: the bulk buffer `spikes` (the
      first `number` running times, all before `tStop`) is extended by one
      draw at a time while the running time stays before `tStop`. Either the
      time at `used - 1` is the first to reach `tStop` and `spikes + extra`
      holds every time before it, or the stream ends first. */
  method TopUp(draws: seq<real>, unitRatio: real, tStop: real, spikes: seq<real>,
               number: nat, ghost times: seq<real>)
      returns (extra: seq<real>, used: nat, exhausted: bool)
    requires RunningTimes(times, draws, unitRatio)
    requires 0 < number <= |draws|
    requires spikes == times[..number]
    requires forall j :: 0 <= j < number ==> spikes[j] < tStop
    ensures exhausted ==> forall j :: 0 <= j < |draws| ==> times[j] < tStop
    ensures !exhausted ==>
      && number < used <= |draws|
      && spikes + extra == times[..used - 1]
      && (forall j :: 0 <= j < used - 1 ==> times[j] < tStop)
      && times[used - 1] >= tStop
  {
    extra := [];
    used := number;
    if used == |draws| {
      return extra, used, true;
    }
    var tLast := spikes[|spikes| - 1] + draws[used] * unitRatio;
    used := used + 1;
    while tLast < tStop
      invariant number < used <= |draws|
      invariant tLast == times[used - 1]
      invariant spikes + extra == times[..used - 1]
      invariant forall j :: 0 <= j < used - 1 ==> times[j] < tStop
      decreases |draws| - used
    {
      extra := extra + [tLast];
      if used == |draws| {
        return extra, used, true;
      }
      tLast := tLast + draws[used] * unitRatio;
      used := used + 1;
    }
    exhausted := false;
  }

  /** The truncation branch: the bulk buffer reaches `tStop`, and its part
      before the insertion point is the realization. */
  lemma TruncationIsRealization(draws: seq<real>, unitRatio: real, meanRate: real,
                                tStart: real, tStop: real, asArray: bool, bulk: seq<real>)
    requires SamplerArgs(draws, unitRatio, meanRate, tStart, tStop)
    requires WindowBufferSize(tStart, tStop, meanRate, unitRatio) <= |draws|
    requires bulk == Candidates(draws, unitRatio, tStart)[..WindowBufferSize(tStart, tStop, meanRate, unitRatio)]
    requires SearchSorted(bulk, tStop) < |bulk|
    ensures Realization(draws, unitRatio, meanRate, tStart, tStop, asArray)
         == Generated(Package(bulk[..SearchSorted(bulk, tStop)], tStart, tStop, asArray), |bulk|)
  {
    var times := Candidates(draws, unitRatio, tStart);
    var i := SearchSorted(bulk, tStop);
    assert bulk[..i] == times[..i];
    RealizationCrossingAt(draws, unitRatio, meanRate, tStart, tStop, asArray, i);
  }

  /** The underrun branch: the bulk buffer and the topped-up times before the
      first one to reach `tStop` are the realization. */
  lemma UnderrunIsRealization(draws: seq<real>, unitRatio: real, meanRate: real,
                              tStart: real, tStop: real, asArray: bool,
                              bulk: seq<real>, extra: seq<real>, used: nat)
    requires SamplerArgs(draws, unitRatio, meanRate, tStart, tStop)
    requires WindowBufferSize(tStart, tStop, meanRate, unitRatio) < used <= |draws|
    requires bulk + extra == Candidates(draws, unitRatio, tStart)[..used - 1]
    requires forall j :: 0 <= j < used - 1 ==> Candidates(draws, unitRatio, tStart)[j] < tStop
    requires Candidates(draws, unitRatio, tStart)[used - 1] >= tStop
    ensures Realization(draws, unitRatio, meanRate, tStart, tStop, asArray)
         == Generated(Package(bulk + extra, tStart, tStop, asArray), used)
  {
    RealizationCrossingAt(draws, unitRatio, meanRate, tStart, tStop, asArray, used - 1);
  }

  /** The renewal-process sampler: size the buffer, draw it in bulk, form the
      cumulative times, then either cut them at `tStop` or, when the whole
      buffer lies before `tStop`, top it up one draw at a time. */
  method HomogeneousProcess(generator: IntervalLaw -> seq<real>, law: IntervalLaw,
                            unitRatio: real, meanRate: real,
                            tStart: real, tStop: real, asArray: bool) returns (r: Outcome)
    requires SamplerArgs(generator(law), unitRatio, meanRate, tStart, tStop)
    ensures r == Realization(generator(law), unitRatio, meanRate, tStart, tStop, asArray)
  {
    var draws := generator(law);
    var n := ExpectedCount(tStart, tStop, meanRate, unitRatio);
    var number := BufferSize(n);
    assert number > 4;
    if |draws| < number {
      return Exhausted;
    }
    var isi := Rescale(draws[..number], unitRatio);
    var spikes := CumSum(isi);
    spikes := Offset(spikes, tStart);
    BulkIsPrefix(draws, unitRatio, tStart, number);
    var i := SearchSorted(spikes, tStop);
    if i == |spikes| {
      // buffer underrun: extend one interval at a time
      CandidatesAreRunningTimes(draws, unitRatio, tStart);
      var extraSpikes, used, exhausted :=
        TopUp(draws, unitRatio, tStop, spikes, number, Candidates(draws, unitRatio, tStart));
      if exhausted {
        RealizationNoCrossing(draws, unitRatio, meanRate, tStart, tStop, asArray);
        return Exhausted;
      }
      UnderrunIsRealization(draws, unitRatio, meanRate, tStart, tStop, asArray, spikes, extraSpikes, used);
      spikes := spikes + extraSpikes;
      r := Generated(Package(spikes, tStart, tStop, asArray), used);
    } else {
      TruncationIsRealization(draws, unitRatio, meanRate, tStart, tStop, asArray, spikes);
      spikes := spikes[..i];
      r := Generated(Package(spikes, tStart, tStop, asArray), number);
    }
  }

  // ---------------------------------------------------------------------
  // Properties of a realization

  /** Every spike lies in the half-open window [tStart, tStop) and the spikes
      are sorted. */
  lemma RealizationInWindow(draws: seq<real>, unitRatio: real, meanRate: real,
                            tStart: real, tStop: real, asArray: bool)
    requires SamplerArgs(draws, unitRatio, meanRate, tStart, tStop)
    ensures var r := Realization(draws, unitRatio, meanRate, tStart, tStop, asArray);
      r.Generated? ==>
        var s := r.data.Values();
        && NonDecreasing(s)
        && forall j :: 0 <= j < |s| ==> tStart <= s[j] < tStop
  {
  }

  /** The spikes are a prefix of the candidate times, shorter than the
      stream: the first is one interval past `tStart` and each later one
      continues the running sum by one interval. */
  lemma RealizationIsPrefix(draws: seq<real>, unitRatio: real, meanRate: real,
                            tStart: real, tStop: real, asArray: bool)
    requires SamplerArgs(draws, unitRatio, meanRate, tStart, tStop)
    ensures var r := Realization(draws, unitRatio, meanRate, tStart, tStop, asArray);
      r.Generated? ==>
        var s := r.data.Values();
        && |s| < |draws|
        && s == Candidates(draws, unitRatio, tStart)[..|s|]
        && (|s| > 0 ==> s[0] == tStart + draws[0] * unitRatio)
        && (forall j :: 0 < j < |s| ==> s[j] == s[j - 1] + draws[j] * unitRatio)
  {
    var r := Realization(draws, unitRatio, meanRate, tStart, tStop, asArray);
    if r.Generated? {
      var s := r.data.Values();
      var times := Candidates(draws, unitRatio, tStart);
      assert s == times[..|s|];
      if |s| > 0 {
        CandidateFirst(draws, unitRatio, tStart);
      }
      forall j | 0 < j < |s| ensures s[j] == s[j - 1] + draws[j] * unitRatio {
        CandidateStep(draws, unitRatio, tStart, j);
      }
    }
  }

  /** No point of the window is dropped: a candidate is a spike exactly when
      it lies before `tStop`, and the candidate after the last spike is at or
      past `tStop`. */
  lemma RealizationKeepsWindow(draws: seq<real>, unitRatio: real, meanRate: real,
                               tStart: real, tStop: real, asArray: bool)
    requires SamplerArgs(draws, unitRatio, meanRate, tStart, tStop)
    ensures var r := Realization(draws, unitRatio, meanRate, tStart, tStop, asArray);
      var times := Candidates(draws, unitRatio, tStart);
      r.Generated? ==>
        var s := r.data.Values();
        && |s| < |times|
        && times[|s|] >= tStop
        && forall j :: 0 <= j < |times| ==> (times[j] < tStop <==> j < |s|)
  {
    SearchSortedSplits(Candidates(draws, unitRatio, tStart), tStop);
  }

  /** The two branches and the draws they take: the result is `Exhausted`
      exactly when the stream cannot fill the bulk buffer or never reaches
      `tStop`; a truncated buffer uses all `size` draws; an extended one
      starts with the whole bulk buffer and uses every draw up to the first
      one that reaches `tStop`. */
  lemma RealizationBranches(draws: seq<real>, unitRatio: real, meanRate: real,
                            tStart: real, tStop: real, asArray: bool)
    requires SamplerArgs(draws, unitRatio, meanRate, tStart, tStop)
    ensures var r := Realization(draws, unitRatio, meanRate, tStart, tStop, asArray);
      var size := WindowBufferSize(tStart, tStop, meanRate, unitRatio);
      var times := Candidates(draws, unitRatio, tStart);
      && (r.Exhausted? <==>
            |draws| < size || forall j :: 0 <= j < |draws| ==> times[j] < tStop)
      && (r.Generated? && |r.data.Values()| < size ==> r.consumed == size)
      && (r.Generated? && |r.data.Values()| >= size ==>
            && r.consumed == |r.data.Values()| + 1
            && r.data.Values()[..size] == Offset(CumSum(Rescale(draws[..size], unitRatio)), tStart))
  {
    var r := Realization(draws, unitRatio, meanRate, tStart, tStop, asArray);
    var size := WindowBufferSize(tStart, tStop, meanRate, unitRatio);
    var times := Candidates(draws, unitRatio, tStart);
    var k := SearchSorted(times, tStop);
    if |draws| < size || k == |draws| {
      assert r.Exhausted?;
    } else {
      assert times[k] >= tStop;
      assert r.data.Values() == times[..k] && r.consumed == Max(size, k + 1);
      if k >= size {
        BulkIsPrefix(draws, unitRatio, tStart, size);
        assert times[..k][..size] == times[..size];
      }
    }
  }

  /** `as_array` changes only the wrapping: both representations hold the
      same spike times from the same draws, and the spike train carries the
      window. */
  lemma OutputRepresentations(draws: seq<real>, unitRatio: real, meanRate: real,
                              tStart: real, tStop: real)
    requires SamplerArgs(draws, unitRatio, meanRate, tStart, tStop)
    ensures var a := Realization(draws, unitRatio, meanRate, tStart, tStop, true);
      var t := Realization(draws, unitRatio, meanRate, tStart, tStop, false);
      && a.Generated? == t.Generated?
      && (a.Generated? ==>
            && a.data.Magnitudes? && t.data.SpikeTrain?
            && a.data.Values() == t.data.Values()
            && a.consumed == t.consumed
            && t.data.tStart == tStart && t.data.tStop == tStop)
  {
  }

  // ---------------------------------------------------------------------
  // The two public processes

  /** Poisson process: exponential intervals whose mean is the reciprocal of
      the rate, sampled at that rate. */
  function PoissonParams(rate: real): (p: ProcessParams)
    requires rate > 0.0
    ensures p.law.Exponential? && p.meanRate == rate
    ensures MeanInterval(p.law) * p.meanRate == 1.0
  {
    ProcessParams(Exponential(1.0 / rate), rate)
  }

  /** Gamma process with shape `a` and rate `b`: gamma intervals of shape `a`
      and scale `1 / b`, sampled at mean rate `b / a`, which is again the
      reciprocal of the mean interval. */
  function GammaParams(a: real, b: real): (p: ProcessParams)
    requires a > 0.0 && b > 0.0
    ensures p.law.Gamma? && p.law.k == a && p.law.theta * b == 1.0
    ensures p.meanRate * a == b
    ensures MeanInterval(p.law) * p.meanRate == 1.0
  {
    var rate := b / a;
    ProcessParams(Gamma(a, 1.0 / b), rate)
  }

  method HomogeneousPoissonProcess(generator: IntervalLaw -> seq<real>, rate: real,
                                   tStart: real, tStop: real, asArray: bool, unitRatio: real)
      returns (r: Outcome)
    requires rate > 0.0 && tStart <= tStop && unitRatio > 0.0
    requires AllNonNegative(generator(Exponential(1.0 / rate)))
    ensures r == Realization(generator(Exponential(1.0 / rate)), unitRatio, rate, tStart, tStop, asArray)
  {
    var p := PoissonParams(rate);
    r := HomogeneousProcess(generator, p.law, unitRatio, p.meanRate, tStart, tStop, asArray);
  }

  method HomogeneousGammaProcess(generator: IntervalLaw -> seq<real>, a: real, b: real,
                                 tStart: real, tStop: real, asArray: bool, unitRatio: real)
      returns (r: Outcome)
    requires a > 0.0 && b > 0.0 && tStart <= tStop && unitRatio > 0.0
    requires AllNonNegative(generator(Gamma(a, 1.0 / b)))
    ensures r == Realization(generator(Gamma(a, 1.0 / b)), unitRatio, b / a, tStart, tStop, asArray)
  {
    var p := GammaParams(a, b);
    r := HomogeneousProcess(generator, p.law, unitRatio, p.meanRate, tStart, tStop, asArray);
  }

  /** The documented calls over 0 to 1000 ms (one Hz is 1000 ms^-1): a
      50 Hz Poisson process expects 50 spikes and draws the capped 100
      intervals; a gamma process of shape 2 and rate 50 Hz has mean rate
      25 Hz and draws 55. */
  lemma DocumentedWindows()
    ensures WindowBufferSize(0.0, 1000.0, PoissonParams(50.0).meanRate, 1000.0) == 100
    ensures GammaParams(2.0, 50.0).meanRate == 25.0
    ensures WindowBufferSize(0.0, 1000.0, GammaParams(2.0, 50.0).meanRate, 1000.0) == 55
  {
    assert ExpectedCount(0.0, 1000.0, 50.0, 1000.0) == 50;
    assert ExpectedCount(0.0, 1000.0, 25.0, 1000.0) == 25;
    BufferSizeByRange(50);
    BufferSizeByRange(25);
  }
}
