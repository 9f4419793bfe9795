# pyfar filter classes and time-domain data, in Dafny

This project models two parts of pyfar, an acoustics signal-processing library:

- **The filter classes** of `pyfar.dsp.classes`:
  - `Filter` and its variants `FilterFIR`, `FilterIIR` and `FilterSOS`;
  - the helper `atleast_3d_first_dim`, which brings coefficient arrays into the layout
    (filters, rows, coefficients);
  - `process`, which runs every filter of a bank over every channel of a signal with the
    linear difference equation `a0·y[n] = Σ b_k·x[n-k] − Σ_{k≥1} a_k·y[n-k]`, starting from
    rest. Second-order sections run as a cascade.
- **The time-domain container `TimeData`** of `pyfar.signal`:
  - its construction, the `time` setter and the read-only properties;
  - `reshape` and `flatten` of the channel shape (cshape), which leave the trailing sample
    axis alone;
  - `find_nearest_time`.

The implementation modules are not part of this model. Their behaviour is taken from the
repository's tests, `tests/test_filter_classes.py` and `tests/test_data_time.py`. Every row
below cites the test lines that pin the behaviour down.

Layout:

- `exceptions.dfy`: `Option`, `Result` and the Python exceptions raised (`ValueError`,
  `IndexError`, `NotImplementedError`).
- `text.dfy`: Python's `str()` of an int and `repr()` of an int tuple. Both are used for the
  comment setter and the reshape error message.
- `shapes.dfy`: element counts of shapes, and row-major positions of multi-indices.
- `difference_equation.dfy`: the difference equation over `real`, the second-order-section
  cascade, and the loops that evaluate them.
- `filter_classes.dfy`: the coefficient arrays and `atleast_3d_first_dim`, the FIR
  denominator synthesis, and `class Filter`.
  - The four Python classes become one Dafny class whose constant `kind` records which class
    built the object.
- `signal.dfy`: the sample buffer, which stores the data flat in row-major order with the
  cshape and the sample count. It also holds numpy's reshape rules, the argmin search and
  `class TimeData`.

## Model

| member | source | states |
|---|---|---|
| FilterClasses.Filter.Create | tests/test_filter_classes.py:9-39 | `Filter(coefficients, state, comment)` fails with ValueError exactly when there are no coefficients but a state is given. Otherwise the coefficients are stored through atleast_3d_first_dim (none stay none), the state is stored as given, and the comment as its `str()` text. |
| FilterClasses.Filter.Init | tests/test_filter_classes.py:21-39 | The object stores the kind, the coefficients and the state unchanged, and the comment in text form; a state is accepted only together with coefficients |
| FilterClasses.Filter.SetComment | tests/test_filter_classes.py:42-48 | Assigning the comment stores `str()` of the value, keeps the object valid and changes nothing else |
| Text.Str | tests/test_filter_classes.py:42-48 | A string comment is kept verbatim. An int becomes canonical decimal text (no leading zeros, no "-0") that parses back to the same int. |
| Text.StrOfFiveHundred | tests/test_filter_classes.py:47-48 | The comment 500 is stored as "500" |
| Text.NatToString | tests/test_filter_classes.py:47-48 | The decimal digits of a natural number are never empty and are all digits. A leading zero occurs only for 0. |
| Text.NatToStringRoundTrip | tests/test_filter_classes.py:47-48 | Reading the digits back gives the number |
| Text.IntToString | tests/test_filter_classes.py:47-48 | An int's text is a canonical decimal literal (no leading zeros, no "-0"), with a minus sign exactly for negative numbers |
| Text.IntToStringRoundTrip | tests/test_filter_classes.py:47-48 | Parsing an int's text gives the int back |
| Text.CanonicalDigitsAreNatToString | tests/test_filter_classes.py:47-48 | Digits without a leading zero are exactly the digits `str()` writes for their value |
| Text.IntToStringIsUnique | tests/test_filter_classes.py:47-48 | The text of an int is the only canonical decimal text with that value, so `str(500)` can only be "500" |
| Text.TupleRepr | tests/test_data_time.py:72-73 | A shape is written in parentheses, and a 1-tuple has its trailing comma |
| FilterClasses.AtLeast3dFirstDim | tests/test_filter_classes.py:487-502 | A vector of length L becomes shape (1, 1, L), and an (M, L) matrix becomes (1, M, L) with the same row lengths. A rank-3 array is returned unchanged. The entries, in row-major order, are always preserved. |
| FilterClasses.AtLeast3dFirstDimExamples | tests/test_filter_classes.py:487-502 | The three cases of the test: [1,0,0], [[1,0,0],[2,2,2]] and any rank-3 array |
| FilterClasses.Filter.IIR | tests/test_filter_classes.py:51-54 | FilterIIR stores a single [b, a] pair as a bank of one filter, i.e. `coeff[np.newaxis]` |
| FilterClasses.Filter.SOS | tests/test_filter_classes.py:76-79 | FilterSOS stores a list of sections as a bank of one filter |
| FilterClasses.Filter.FIR | tests/test_filter_classes.py:57-73 | FilterFIR pairs every numerator row with a denominator [1, 0, …, 0] of the same length |
| FilterClasses.FirBankExamples | tests/test_filter_classes.py:57-73 | A vector gives one filter. The 2×3 matrix gives two filters, in order, each with the denominator [1, 0, 0]. |
| FilterClasses.BankResponse | tests/test_filter_classes.py:440-484 | A bank of F filters applied to C channels yields F rows of C channels, each as long as its input channel |
| FilterClasses.Filter.Process | tests/test_filter_classes.py:82-96 | For a filter with coefficients, process returns every filter of the bank applied to every channel. Without coefficients it fails with ValueError, and on the base class with NotImplementedError. |
| FilterClasses.ProcessFilter | tests/test_filter_classes.py:82-96 | One filter is applied to every channel, and row c is the filter's response to channel c |
| DifferenceEquation.Filtered | tests/test_filter_classes.py:82-96 | The output has one sample per input sample |
| DifferenceEquation.FilterChannel | tests/test_filter_classes.py:82-96 | The sample-by-sample loop computes the filter output |
| DifferenceEquation.ConvAt | tests/test_filter_classes.py:82-96 | The loop computes the weighted sum Σ c[k]·s[n-k], where samples before the start are zero |
| DifferenceEquation.FilteredIsTheSolution | tests/test_filter_classes.py:82-96 | A sequence satisfies `Σ a_k·y[n-k] = Σ b_k·x[n-k]` at every n exactly when it is the filter's output |
| DifferenceEquation.RecursionDeterminesOutput | tests/test_filter_classes.py:82-96 | Any solution of the difference equation equals the computed output |
| DifferenceEquation.FilteredSolvesAt | tests/test_filter_classes.py:82-96 | The computed output satisfies the difference equation at each sample |
| DifferenceEquation.FilteredIsCausal | tests/test_filter_classes.py:82-96 | Filtering a prefix of the input gives the same prefix of the output |
| DifferenceEquation.ConvReadsOnlyThePast | tests/test_filter_classes.py:82-96 | The weighted sum at n reads only samples up to n |
| DifferenceEquation.FirIsConvolution | tests/test_filter_classes.py:57-73 | With denominator [1, 0, …, 0], the filter output is the convolution of the input with b |
| DifferenceEquation.FirImpulseResponse | tests/test_filter_classes.py:432-437 | With denominator [1, 0, …, 0], a unit impulse yields b followed by zeros |
| DifferenceEquation.ConvOfUnitImpulse | tests/test_filter_classes.py:432-437 | The weighted sum over a unit impulse picks out the n-th coefficient |
| DifferenceEquation.ExampleIirImpulseResponse | tests/test_filter_classes.py:89-96 | For b=[1, .5, 0] and a=[1, 1/8, 0], the impulse response is 1 at n=0 and 0.375·(−1/8)^(n−1) after |
| DifferenceEquation.ExampleIirImpulsePrefix | tests/test_filter_classes.py:89-96 | That response starts 1, 0.375, −0.046875, 0.005859375 |
| FilterClasses.IirProcessExample | tests/test_filter_classes.py:89-96 | FilterIIR([[1, .5, 0], [1, 1/8, 0]]).process of an impulse starts 1, 0.375, −0.046875, 0.005859375 |
| FilterClasses.ImpulseResponseIsNumerator | tests/test_filter_classes.py:82-87 | For a bank whose denominators are all [1, 0, …, 0] (IIR, FIR or single SOS section), every filter answers a unit impulse with its own numerator, then zeros |
| FilterClasses.ImpulseResponsePrefix | tests/test_filter_classes.py:440-484 | The first three outputs of filter f for an impulse are its three numerator coefficients |
| FilterClasses.FirProcessIsConvolution | tests/test_filter_classes.py:57-73 | FilterFIR.process convolves every channel with every numerator row |
| FilterClasses.ProcessExamples | tests/test_filter_classes.py:82-87 | The IIR, FIR and SOS single-filter tests (lines 82-87, 432-437 and 461-471): each starts its impulse response with 1, 0.5, 0 |
| FilterClasses.IirBankProcessExample | tests/test_filter_classes.py:440-448 | Two IIR filters give two rows, starting [1, .5, 0] and [1, .25, 0] |
| FilterClasses.FirBankProcessExample | tests/test_filter_classes.py:451-458 | Two FIR numerators give two rows, each starting with its numerator |
| FilterClasses.SosBankProcessExample | tests/test_filter_classes.py:474-484 | Two single-section SOS filters give two rows, each starting with its section's numerator |
| DifferenceEquation.SosFiltered | tests/test_filter_classes.py:461-484 | A cascade of sections keeps the signal length |
| DifferenceEquation.SosCascadeComposes | tests/test_filter_classes.py:461-484 | Running sections s1 then s2 equals running the cascade s1 + s2 |
| DifferenceEquation.CascadeChannel | tests/test_filter_classes.py:461-484 | The section-by-section loop computes the cascade |
| Shapes.Product | tests/test_data_time.py:44-73 | The element count of a shape with no negative dimension is not negative |
| Shapes.ProductSnoc | tests/test_data_time.py:7-21 | Appending a dimension multiplies the element count |
| Shapes.ProductUpdate | tests/test_data_time.py:52-54 | Replacing one dimension scales the count by the new dimension |
| Shapes.FlatIndex | tests/test_data_time.py:44-54 | The row-major position of a valid multi-index lies inside the array |
| Signal.AtLeast2d | tests/test_data_time.py:7-41 | Data becomes channels × samples with its entries in the same order: a vector is one channel, and the last axis holds the samples |
| Signal.ToArray | tests/test_data_time.py:17 | The array view of a buffer is well formed: its entry count matches its shape |
| Signal.TimeReadsBack | tests/test_data_time.py:7-41 | `time` reads back arrays of rank 2 or more unchanged, and a vector of length L as (1, L) |
| Signal.InitExamples | tests/test_data_time.py:7-30 | (1, 0, -1) is stored as one channel of 3 samples, and two times for three samples do not fit |
| Signal.TimeData.Create | tests/test_data_time.py:7-30 | Construction fails with ValueError exactly when the number of times differs from the number of samples. Otherwise the data is stored as by the time setter, and the times as given. |
| Signal.TimeData.Time | tests/test_data_time.py:17 | `time` returns the samples with shape cshape + (n_samples,) |
| Signal.TimeData.NSamples | tests/test_data_time.py:20 | `n_samples` is the number of times and the length of the last axis of `time` |
| Signal.TimeData.Domain | tests/test_data_time.py:21 | `domain` is always 'time' |
| Signal.ConstructionExample | tests/test_data_time.py:7-30 | For data (1, 0, -1) and times (0, .1, .3): n_samples is 3, signal_length is .3 and domain is 'time'. The times (0, .1) give ValueError. |
| Signal.TimeData.SignalLength | tests/test_data_time.py:19 | `signal_length` is the last time, or IndexError when there are no times |
| Signal.TimeData.SetTime | tests/test_data_time.py:33-41 | The time setter replaces the stored samples with the new data and leaves the times alone |
| Signal.ResolveShape | tests/test_data_time.py:44-73 | numpy's rules for a new cshape. Without −1, the sizes must multiply to the channel count. A single −1 is inferred when the other sizes multiply to a positive divisor. Any other −1 use, or a size below −1, is refused. |
| Signal.IndexOf | tests/test_data_time.py:52-54 | Finds the first −1, or reports that there is none |
| Signal.ResolvedShapeIsUnique | tests/test_data_time.py:52-54 | Every shape that keeps the given sizes and has the right count is the resolved one, so an inferred −1 is determined |
| Signal.ReshapeSamples | tests/test_data_time.py:44-73 | A list is a ValueError. A tuple or an int succeeds exactly when its shape resolves, and otherwise fails with ValueError, message "Can not reshape signal of cshape …". The samples, their order and n_samples are kept. |
| Signal.ReshapeRoundTrip | tests/test_data_time.py:44-54 | Reshaping back to the old cshape restores the original buffer |
| Signal.ReshapeRegroupsRowMajor | tests/test_data_time.py:44-54 | After reshape, a channel's samples are those of the old channel at the same row-major position |
| Signal.ReshapeSixChannelsExamples | tests/test_data_time.py:44-73 | On cshape (6,): (3, 2) and (3, −1) both give (3, 2) with the samples kept. A list, and (3, 4), are ValueErrors, the latter with the "Can not reshape" message. |
| Signal.ReshapeSixChannelsRegroups | tests/test_data_time.py:46-54 | After reshaping six channels to (3, 2), channel (i, j) is old channel 2i+j, as numpy's `reshape(3, 2, -1)` orders them |
| Signal.ReshapeToIntExample | tests/test_data_time.py:56-60 | cshape (3, 2) reshaped by the bare int 6 becomes (6,) |
| Signal.TimeData.Reshape | tests/test_data_time.py:44-73 | reshape returns a new object with the reshaped buffer and the same times, or the error |
| Signal.FlattenSamples | tests/test_data_time.py:76-92 | flatten is reshape to (product(cshape),): one channel axis, with the same samples in the same order |
| Signal.FlattenKeepsOneAxis | tests/test_data_time.py:78-84 | A container with one channel axis is unchanged by flatten |
| Signal.FlattenMergesTwoAxes | tests/test_data_time.py:86-92 | (A, B) channels become (A·B,) |
| Signal.TimeData.Flatten | tests/test_data_time.py:76-92 | flatten returns a new object with the flattened buffer and the same times |
| Signal.FirstNearestIsUnique | tests/test_data_time.py:95-107 | At most one index is the first closest, so the answer is determined |
| Signal.FindNearestExamples | tests/test_data_time.py:95-107 | For times (0, .1, .3), .15 gives index 1 and .4 gives index 2 |
| Signal.ArgMinDistance | tests/test_data_time.py:95-107 | The linear search returns the first closest index |
| Signal.TimeData.FindNearestTime | tests/test_data_time.py:101-103 | find_nearest_time of one time gives the first closest index, or ValueError when there are no times |
| Signal.TimeData.FindNearestTimes | tests/test_data_time.py:105-107 | find_nearest_time of a list gives, for each query in order, the first closest index |

`TimeData` declares no `freq`, `frequencies`, `n_bins`, `find_nearest_frequency` or
`sampling_rate` member, and no domain setter (tests/test_data_time.py:110-135). In Dafny,
using one of them does not resolve. That is the counterpart of the `AttributeError` in the
tests.

`reshape` of a list raises `ValueError` (tests/test_data_time.py:68-69).

## Left out

- Filter state across calls: persistence of `state` between successive `process` calls is
  not modelled. The tests only check that the state is stored at construction. `process`
  always starts from rest.
- FilterClasses.Filter.Process: the output is a bank of rows, not a `Signal` object. The
  squeezing of singleton axes that makes `res.time[:3]` work for one filter is not modelled.
- FilterClasses.Filter.Process: the base `Filter.process` is modelled as
  NotImplementedError. The tests never call it.
- FilterClasses.Filter.Process: the ValueError for a filter without coefficients is the
  model's choice. No test calls process on such a filter.
- Text.Str: comment values are only str or int (`PyValue`). Python's setter stores `str()`
  of any object, such as None or a float; those values are not modelled.
- FilterClasses.Filter.Process: requires every denominator to have a non-zero leading
  coefficient, and every section to have six coefficients and a non-zero a0. The tests never
  give a zero a0.
- FilterClasses.Filter.Process: scipy's demand that an SOS section's a0 be exactly 1 is not
  checked; the model divides by a0 instead.
- FilterClasses.AtLeast3dFirstDim: coefficient arrays of rank 0 or of rank above 3 are not
  modelled. `Array` has only ranks 1, 2 and 3.
- FilterClasses.Filter.FIR: requires a coefficient array of rank 1 or 2, the only ranks a
  list of numerators can have.
- Filter arithmetic is over exact reals, so the double-precision tail of the expected IIR
  output is not modelled: subnormals, then exact zeros, at tests/test_filter_classes.py:93-427.
  Only the exact prefix is stated.
- The mock impulse signal fixture (tests/test_filter_classes.py:505-547) and the random test
  data are replaced by an explicit unit impulse and arbitrary sequences.
- Frequency-domain conversion, FFT normalisation, `signal_type` scaling and sampling rates:
  these are an external transform over floating point, not exercised by the tests.
- Plotting (`haiopy/plot/plot.py`) is UI code. `pyfar/dsp/__init__.py` only re-exports.
- Signal.TimeData.SetTime: requires the new data to have as many samples as there are times.
  The tests only assign data of the same length, and what pyfar does otherwise is not shown.
- Signal.TimeData.FindNearestTimes: a list query returns a list. numpy's squeezing of a
  one-element result to a scalar is not modelled.
- Signal.ArgMinDistance: ties go to the first minimal index, as `np.argmin` does. No test
  pins the tie-break down.
- Signal.ArgMinDistance: times and queries are exact reals, not float64, so near-ties can
  resolve differently. For times (0, .1, .3) and query .2, float64 gives index 2, because
  |.3 − .2| rounds below |.2 − .1|. The model sees a tie and gives 1.
- Signal.TimeData.Create: no check that the times increase; the tests never give
  non-monotonic times.
- Error messages: only the reshape message's prefix is fixed by the tests. The other
  messages are the model's own wording.
