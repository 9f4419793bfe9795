/** TimeData: time-domain samples with a channel shape (cshape) and a trailing sample axis,
    its times, and the shape operations reshape, flatten and find_nearest_time. */
module Signal {
  import opened Exceptions
  import opened Text
  import opened Shapes

  /** A numpy array: its shape and its entries in row-major (C) order. */
  datatype NdArray = NdArray(shape: seq<nat>, data: seq<real>) {
    predicate Valid() {
      |data| == Product(shape)
    }
  }

  /** The samples of a time-domain object: an array of shape cshape + (nSamples,), stored
      in row-major order, so every channel is a run of nSamples consecutive entries. */
  datatype SampleBuffer = SampleBuffer(cshape: seq<nat>, nSamples: nat, data: seq<real>) {
    predicate Valid() {
      |data| == Product(cshape) * nSamples
    }
  }

  /** The buffer as the numpy array the time property returns. */
  function ToArray(b: SampleBuffer): (a: NdArray)
    requires b.Valid()
    ensures a.Valid()
  {
    ProductSnoc(b.cshape, b.nSamples);
    NdArray(b.cshape + [b.nSamples], b.data)
  }

  /** The time setter's conversion: np.atleast_2d, then the last axis holds the samples. */
  function AtLeast2d(a: NdArray): (b: SampleBuffer)
    requires a.Valid()
    ensures b.Valid() && b.data == a.data
  {
    if |a.shape| == 0 then SampleBuffer([1], 1, a.data)
    else if |a.shape| == 1 then
      assert Product(a.shape) == a.shape[0] * Product([]);
      assert Product([1]) == 1 * Product([]);
      SampleBuffer([1], a.shape[0], a.data)
    else
      var k := |a.shape| - 1;
      assert a.shape == a.shape[..k] + [a.shape[k]];
      ProductSnoc(a.shape[..k], a.shape[k]);
      SampleBuffer(a.shape[..k], a.shape[k], a.data)
  }

  /** Reading back what was stored: an array of rank 2 or more comes back unchanged, a
      vector of length L comes back as one channel row of shape (1, L). */
  lemma TimeReadsBack(a: NdArray)
    requires a.Valid()
    ensures ToArray(AtLeast2d(a)).data == a.data
    ensures |a.shape| >= 2 ==> ToArray(AtLeast2d(a)) == a
    ensures |a.shape| == 1 ==> ToArray(AtLeast2d(a)).shape == [1] + a.shape
    ensures |a.shape| == 1 ==> AtLeast2d(a).nSamples == a.shape[0]
    ensures |a.shape| == 0 ==> ToArray(AtLeast2d(a)).shape == [1, 1]
  {
    if |a.shape| >= 2 {
      var k := |a.shape| - 1;
      assert a.shape[..k] + [a.shape[k]] == a.shape;
    }
  }

  /** The construction tests: three samples (1, 0, -1) are stored as one channel of three
      samples and read back with shape (1, 3); two times for three samples do not fit. */
  lemma InitExamples()
    ensures AtLeast2d(NdArray([3], [1.0, 0.0, -1.0])) == SampleBuffer([1], 3, [1.0, 0.0, -1.0])
    ensures ToArray(AtLeast2d(NdArray([3], [1.0, 0.0, -1.0]))).shape == [1, 3]
    ensures |[0.0, 0.1]| != AtLeast2d(NdArray([3], [1.0, 0.0, -1.0])).nSamples
  {
    assert Product([3]) == 3 * Product([]);
  }

  /** The argument of reshape: a bare int, a tuple, or (rejected) a list. */
  datatype NewShape = IntShape(n: int) | TupleShape(dims: seq<int>) | ListShape(items: seq<int>)

  /** The dimensions asked for; a bare int n stands for the tuple (n,). */
  function Dims(s: NewShape): seq<int>
    requires !s.ListShape?
  {
    if s.IntShape? then [s.n] else s.dims
  }

  /** The first position of x in s. */
  function IndexOf(s: seq<int>, x: int): (r: Option<nat>)
    ensures r.None? <==> forall i :: 0 <= i < |s| ==> s[i] != x
    ensures r.Some? ==> r.value < |s| && s[r.value] == x
    ensures r.Some? ==> forall i :: 0 <= i < r.value ==> s[i] != x
  {
    if |s| == 0 then None
    else if s[0] == x then Some(0)
    else
      var rest := IndexOf(s[1..], x);
      if rest.None? then None else Some(rest.value + 1)
  }

  /** Every dimension is a size or the placeholder -1, and -1 occurs at most once. */
  predicate WellFormedDims(dims: seq<int>) {
    (forall i :: 0 <= i < |dims| ==> dims[i] >= -1)
    && forall i, j :: 0 <= i < j < |dims| && dims[i] == -1 ==> dims[j] != -1
  }

  /** s is a concrete shape for dims: it keeps every dimension that is not -1. */
  predicate Fills(dims: seq<int>, s: seq<nat>) {
    |s| == |dims| && forall i :: 0 <= i < |dims| && dims[i] != -1 ==> s[i] == dims[i]
  }

  /** numpy's rules for a new shape of count elements: without -1 the sizes must multiply
      to count; a single -1 is inferred when the other sizes multiply to a positive
      divisor of count. */
  function ResolveShape(dims: seq<int>, count: nat): (r: Option<seq<nat>>)
    ensures r.Some? ==> WellFormedDims(dims) && Fills(dims, r.value) && Product(r.value) == count
    ensures WellFormedDims(dims) && IndexOf(dims, -1).None? ==> (r.Some? <==> Product(dims) == count)
    ensures forall p :: WellFormedDims(dims) && 0 <= p < |dims| && dims[p] == -1 ==>
              (r.Some? <==> Product(dims[p := 1]) > 0 && count % Product(dims[p := 1]) == 0)
  {
    if !WellFormedDims(dims) then None
    else
      match IndexOf(dims, -1)
      case None =>
        if Product(dims) == count then Some(dims) else None
      case Some(p) =>
        var known := Product(dims[p := 1]);
        if known > 0 && count % known == 0 then
          ProductUpdate(dims, p, count / known);
          Some(dims[p := count / known])
        else None
  }

  lemma CancelFactor(u: int, v: int, k: int)
    requires k > 0 && u * k == v * k
    ensures u == v
  {
    assert (u - v) * k == 0;
  }

  /** The inferred dimension is the only one possible: every concrete shape that keeps the
      given sizes and holds count elements is the resolved one. */
  lemma ResolvedShapeIsUnique(dims: seq<int>, count: nat, s: seq<nat>)
    requires ResolveShape(dims, count).Some?
    requires Fills(dims, s) && Product(s) == count
    ensures s == ResolveShape(dims, count).value
  {
    var r := ResolveShape(dims, count).value;
    match IndexOf(dims, -1)
    case None =>
      assert s == dims == r;
    case Some(p) =>
      assert s[p := 1] == dims[p := 1] == r[p := 1];
      var known := Product(dims[p := 1]);
      ProductUpdate(s, p, s[p]);
      ProductUpdate(r, p, r[p]);
      assert s[p := s[p]] == s && r[p := r[p]] == r;
      CancelFactor(s[p], r[p], known);
      assert s == r;
  }

  const ReshapeErrorPrefix := "Can not reshape signal of cshape"

  /** reshape: a list is refused; otherwise the new channel shape must hold the same number
      of channels. The samples and their row-major order are kept. */
  function ReshapeSamples(b: SampleBuffer, newshape: NewShape): (r: Result<SampleBuffer>)
    requires b.Valid()
    ensures r.Err? ==> r.error.ValueError?
    ensures newshape.ListShape? ==> r.Err?
    ensures !newshape.ListShape? ==>
              (r.Ok? <==> ResolveShape(Dims(newshape), Product(b.cshape)).Some?)
    ensures !newshape.ListShape? && r.Err? ==> ReshapeErrorPrefix <= r.error.message
    ensures r.Ok? ==> r.value.Valid() && r.value.data == b.data && r.value.nSamples == b.nSamples
    ensures r.Ok? ==> Product(r.value.cshape) == Product(b.cshape)
                      && Fills(Dims(newshape), r.value.cshape)
  {
    if newshape.ListShape? then
      Err(ValueError("newshape must be an integer or tuple"))
    else
      match ResolveShape(Dims(newshape), Product(b.cshape))
      case None =>
        Err(ValueError(ReshapeErrorPrefix + " " + TupleRepr(b.cshape) + " to "
                       + TupleRepr(Dims(newshape))))
      case Some(cshape) => Ok(SampleBuffer(cshape, b.nSamples, b.data))
  }

  /** Reshaping back to the original channel shape restores the original buffer. */
  lemma ReshapeRoundTrip(b: SampleBuffer, newshape: NewShape)
    requires b.Valid() && ReshapeSamples(b, newshape).Ok?
    ensures ReshapeSamples(ReshapeSamples(b, newshape).value, TupleShape(b.cshape)) == Ok(b)
  {
    var r := ReshapeSamples(b, newshape).value;
    assert WellFormedDims(b.cshape);
    assert IndexOf(b.cshape, -1).None?;
    ResolvedShapeIsUnique(b.cshape, Product(r.cshape), b.cshape);
  }

  /** flatten: reshape to (product(cshape),), a single channel axis. */
  function FlattenSamples(b: SampleBuffer): (r: SampleBuffer)
    requires b.Valid()
    ensures ReshapeSamples(b, IntShape(Product(b.cshape))) == Ok(r)
    ensures r.cshape == [Product(b.cshape)] && r.data == b.data && r.nSamples == b.nSamples
  {
    var p := Product(b.cshape);
    assert WellFormedDims([p]) && IndexOf([p], -1).None?;
    assert Product([p]) == p;
    ReshapeSamples(b, IntShape(p)).value
  }

  /** The channel at a multi-index of cshape: its run of samples in the buffer. */
  function Channel(b: SampleBuffer, idx: seq<int>): (x: seq<real>)
    requires b.Valid() && IsIndex(idx, b.cshape)
    ensures |x| == b.nSamples
  {
    var k := FlatIndex(idx, b.cshape);
    MulMonotone(k + 1, Product(b.cshape), b.nSamples);
    b.data[k * b.nSamples .. (k + 1) * b.nSamples]
  }

  /** Reshape regroups channels in row-major order: the channel at a new multi-index is
      the old channel at the same row-major position. */
  lemma ReshapeRegroupsRowMajor(b: SampleBuffer, newshape: NewShape, idx: seq<int>, old_idx: seq<int>)
    requires b.Valid() && ReshapeSamples(b, newshape).Ok?
    requires IsIndex(idx, ReshapeSamples(b, newshape).value.cshape) && IsIndex(old_idx, b.cshape)
    requires FlatIndex(idx, ReshapeSamples(b, newshape).value.cshape) == FlatIndex(old_idx, b.cshape)
    ensures Channel(ReshapeSamples(b, newshape).value, idx) == Channel(b, old_idx)
  {
  }

  /** The reshape tests on six channels: (3, 2) and (3, -1) both give cshape (3, 2) with
      channel (i, j) taken from channel 2i + j; a list is a ValueError; (3, 4) is a
      ValueError with the "Can not reshape" message. */
  lemma ReshapeSixChannelsExamples(b: SampleBuffer, i: nat, j: nat)
    requires b.Valid() && b.cshape == [6] && i < 3 && j < 2
    ensures ReshapeSamples(b, TupleShape([3, 2])) == Ok(SampleBuffer([3, 2], b.nSamples, b.data))
    ensures ReshapeSamples(b, TupleShape([3, -1])) == Ok(SampleBuffer([3, 2], b.nSamples, b.data))
    ensures ReshapeSamples(b, ListShape([3, 2])).Err? && ReshapeSamples(b, ListShape([3, 2])).error.ValueError?
    ensures ReshapeSamples(b, TupleShape([3, 4])).Err?
    ensures ReshapeErrorPrefix <= ReshapeSamples(b, TupleShape([3, 4])).error.message
  {
    assert Product([6]) == 6 && Product([3, 2]) == 6 && Product([3, 4]) == 12;
    assert WellFormedDims([3, 2]) && IndexOf([3, 2], -1).None?;
    assert WellFormedDims([3, 4]) && IndexOf([3, 4], -1).None?;
    assert WellFormedDims([3, -1]) && IndexOf([3, -1], -1) == Some(1);
    assert [3, -1][1 := 1] == [3, 1] && Product([3, 1]) == 3;
    assert [3, -1][1 := 6 / 3] == [3, 2];
  }

  /** After reshaping six channels to (3, 2), channel (i, j) is old channel 2i + j. */
  lemma ReshapeSixChannelsRegroups(b: SampleBuffer, i: nat, j: nat)
    requires b.Valid() && b.cshape == [6] && i < 3 && j < 2
    ensures SampleBuffer([3, 2], b.nSamples, b.data).Valid()
    ensures Channel(SampleBuffer([3, 2], b.nSamples, b.data), [i, j]) == Channel(b, [2 * i + j])
  {
    assert Product([2]) == 2 * Product([]);
    assert Product([3, 2]) == 3 * Product([2]);
    assert Product([6]) == 6 * Product([]);
    assert [i, j][1..] == [j] && [3, 2][1..] == [2];
    assert [j][1..] == [] && [2][1..] == [];
    assert FlatIndex([j], [2]) == j;
    assert FlatIndex([i, j], [3, 2]) == 2 * i + j;
    assert [2 * i + j][1..] == [] && [6][1..] == [];
    assert FlatIndex([2 * i + j], [6]) == 2 * i + j;
  }

  /** The flatten test: a single channel axis is left as it is. */
  lemma FlattenKeepsOneAxis(b: SampleBuffer)
    requires b.Valid() && |b.cshape| == 1
    ensures FlattenSamples(b) == b
  {
    assert Product(b.cshape) == b.cshape[0] * Product([]);
    assert [b.cshape[0]] == b.cshape;
  }

  /** The flatten test: two channel axes (A, B) become the single axis (A * B,). */
  lemma FlattenMergesTwoAxes(b: SampleBuffer)
    requires b.Valid() && |b.cshape| == 2
    ensures FlattenSamples(b).cshape == [b.cshape[0] * b.cshape[1]]
  {
    assert b.cshape[1..] == [b.cshape[1]];
    assert Product(b.cshape[1..]) == b.cshape[1] * Product([]);
  }

  /** The int test: cshape (3, 2) reshaped by the bare int 6 becomes (6,). */
  lemma ReshapeToIntExample(b: SampleBuffer)
    requires b.Valid() && b.cshape == [3, 2]
    ensures ReshapeSamples(b, IntShape(6)) == Ok(SampleBuffer([6], b.nSamples, b.data))
  {
    assert Product([3, 2]) == 6;
    assert FlattenSamples(b) == SampleBuffer([6], b.nSamples, b.data);
  }

  function Abs(x: real): real {
    if x < 0.0 then -x else x
  }

  /** i is the first index of times whose distance to t is smallest (np.argmin). */
  predicate IsFirstNearest(times: seq<real>, t: real, i: int) {
    0 <= i < |times|
    && (forall j :: 0 <= j < |times| ==> Abs(times[i] - t) <= Abs(times[j] - t))
    && (forall j :: 0 <= j < i ==> Abs(times[i] - t) < Abs(times[j] - t))
  }

  lemma EarlierIsFarther(times: seq<real>, t: real, i: int, j: int)
    requires IsFirstNearest(times, t, j) && 0 <= i < |times|
    ensures i < j ==> Abs(times[j] - t) < Abs(times[i] - t)
  {
  }

  /** np.argmin's answer is determined: only one index is the first nearest. */
  lemma FirstNearestIsUnique(times: seq<real>, t: real, i: int, j: int)
    requires IsFirstNearest(times, t, i) && IsFirstNearest(times, t, j)
    ensures i == j
  {
    EarlierIsFarther(times, t, i, j);
    EarlierIsFarther(times, t, j, i);
  }

  /** The find_nearest test: for times (0, .1, .3), .15 is nearest to index 1 and .4 to
      index 2. */
  lemma FindNearestExamples()
    ensures IsFirstNearest([0.0, 0.1, 0.3], 0.15, 1)
    ensures IsFirstNearest([0.0, 0.1, 0.3], 0.4, 2)
  {
  }

  /** np.argmin(np.abs(times - t)): a linear search for the first closest time. */
  method ArgMinDistance(times: seq<real>, t: real) returns (i: nat)
    requires |times| > 0
    ensures IsFirstNearest(times, t, i)
  {
    i := 0;
    var k := 1;
    while k < |times|
      invariant 1 <= k <= |times| && i < k
      invariant forall j :: 0 <= j < k ==> Abs(times[i] - t) <= Abs(times[j] - t)
      invariant forall j :: 0 <= j < i ==> Abs(times[i] - t) < Abs(times[j] - t)
    {
      if Abs(times[k] - t) < Abs(times[i] - t) {
        i := k;
      }
      k := k + 1;
    }
  }

  class TimeData {
    var buffer: SampleBuffer
    var times: seq<real>

    /** There is one time per sample. */
    ghost predicate Valid()
      reads this
    {
      buffer.Valid() && |times| == buffer.nSamples
    }

    constructor Init(buffer: SampleBuffer, times: seq<real>)
      requires buffer.Valid() && |times| == buffer.nSamples
      ensures Valid() && this.buffer == buffer && this.times == times
    {
      this.buffer := buffer;
      this.times := times;
    }

    /** TimeData(data, times): the data is stored as by the time setter; a number of times
        other than the number of samples is a ValueError. */
    static method Create(data: NdArray, times: seq<real>) returns (r: Result<TimeData>)
      requires data.Valid()
      ensures r.Err? <==> |times| != AtLeast2d(data).nSamples
      ensures r.Err? ==> r.error.ValueError?
      ensures r.Ok? ==> fresh(r.value) && r.value.Valid()
      ensures r.Ok? ==> r.value.buffer == AtLeast2d(data) && r.value.times == times
    {
      var buffer := AtLeast2d(data);
      if |times| != buffer.nSamples {
        return Err(ValueError("The length of times must be data.shape[-1]"));
      }
      var d := new TimeData.Init(buffer, times);
      return Ok(d);
    }

    /** The time property: the samples as an array of shape cshape + (n_samples,). */
    function Time(): (a: NdArray)
      reads this
      requires Valid()
      ensures a.Valid() && a.data == buffer.data && a.shape == buffer.cshape + [buffer.nSamples]
    {
      ToArray(buffer)
    }

    /** n_samples: the length of the sample axis, which is also the number of times. */
    function NSamples(): (n: nat)
      reads this
      requires Valid()
      ensures n == |times|
      ensures Time().shape[|Time().shape| - 1] == n
    {
      buffer.nSamples
    }

    /** signal_length: the last time; an object without samples has none (IndexError). */
    function SignalLength(): (r: Result<real>)
      reads this
      ensures r.Ok? <==> |times| > 0
      ensures r.Ok? ==> r.value == times[|times| - 1]
      ensures r.Err? ==> r.error.IndexError?
    {
      if |times| == 0 then Err(IndexError("index -1 is out of bounds")) else Ok(times[|times| - 1])
    }

    /** The domain is always 'time'; TimeData has no setter for it. */
    function Domain(): (d: string)
      ensures d == "time"
    {
      "time"
    }

    /** The time setter: the stored samples are replaced by the new data, for the same
        times. */
    method SetTime(value: NdArray)
      requires Valid() && value.Valid() && AtLeast2d(value).nSamples == |times|
      modifies this`buffer
      ensures Valid() && buffer == AtLeast2d(value)
    {
      buffer := AtLeast2d(value);
    }

    /** reshape returns a new object; the original is untouched. */
    method Reshape(newshape: NewShape) returns (r: Result<TimeData>)
      requires Valid()
      ensures r.Err? <==> ReshapeSamples(buffer, newshape).Err?
      ensures r.Err? ==> r == Err(ReshapeSamples(buffer, newshape).error)
      ensures r.Ok? ==> fresh(r.value) && r.value.Valid()
      ensures r.Ok? ==> r.value.buffer == ReshapeSamples(buffer, newshape).value && r.value.times == times
    {
      var reshaped := ReshapeSamples(buffer, newshape);
      if reshaped.Err? {
        return Err(reshaped.error);
      }
      var d := new TimeData.Init(reshaped.value, times);
      return Ok(d);
    }

    /** flatten returns a new object with a single channel axis. */
    method Flatten() returns (r: TimeData)
      requires Valid()
      ensures fresh(r) && r.Valid()
      ensures r.buffer == FlattenSamples(buffer) && r.times == times
    {
      r := new TimeData.Init(FlattenSamples(buffer), times);
    }

    /** find_nearest_time for one time: the index of the first closest entry of times. */
    method FindNearestTime(t: real) returns (r: Result<nat>)
      ensures r.Err? <==> |times| == 0
      ensures r.Err? ==> r.error.ValueError?
      ensures r.Ok? ==> IsFirstNearest(times, t, r.value)
    {
      if |times| == 0 {
        return Err(ValueError("attempt to get argmin of an empty sequence"));
      }
      var i := ArgMinDistance(times, t);
      return Ok(i);
    }

    /** find_nearest_time for a list of times: one index per query, in order. */
    method FindNearestTimes(queries: seq<real>) returns (r: Result<seq<nat>>)
      ensures r.Err? <==> |times| == 0 && |queries| > 0
      ensures r.Err? ==> r.error.ValueError?
      ensures r.Ok? ==> |r.value| == |queries|
      ensures r.Ok? ==> forall k :: 0 <= k < |queries| ==> IsFirstNearest(times, queries[k], r.value[k])
    {
      if |times| == 0 && |queries| > 0 {
        return Err(ValueError("attempt to get argmin of an empty sequence"));
      }
      var indices: seq<nat> := [];
      var k := 0;
      while k < |queries|
        invariant 0 <= k <= |queries| && |indices| == k
        invariant forall m :: 0 <= m < k ==> IsFirstNearest(times, queries[m], indices[m])
      {
        var i := ArgMinDistance(times, queries[k]);
        indices := indices + [i];
        k := k + 1;
      }
      return Ok(indices);
    }
  }

  /** The construction test: data (1, 0, -1) with times (0, .1, .3) gives three samples, a
      signal length of .3 and the domain 'time'; the times (0, .1) are refused. */
  method ConstructionExample() returns (nSamples: nat, length: Result<real>, domain: string,
                                        refused: bool)
    ensures nSamples == 3 && length == Ok(0.3) && domain == "time" && refused
  {
    InitExamples();
    var data := NdArray([3], [1.0, 0.0, -1.0]);
    var created := TimeData.Create(data, [0.0, 0.1, 0.3]);
    var time := created.value;
    nSamples := time.NSamples();
    length := time.SignalLength();
    domain := time.Domain();
    var wrong := TimeData.Create(data, [0.0, 0.1]);
    refused := wrong.Err? && wrong.error.ValueError?;
  }
}
