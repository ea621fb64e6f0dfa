# Spike dataset and readout network, modelled in Dafny

This project models the analysis core of a spiking-neuron waveform
project. The core has three parts:

- **The spike dataset** (`python/spike_data.py`). A numeric table is split into time, input signal and spike channels. Every channel is smoothed into a spike rate by numpy's box filter, `np.convolve(x, np.ones(w), 'same') / w`. The rates can be recomputed in place with width 10.
- **The population statistics** (`python/plot_data.py`). One is the per-timestep population vector: the mean activity and the mean rate across channels. The other is the windowed mean pairwise correlation between channels.
- **The readout network** (`python/train_readout.py`):
  - the leading-fraction train/test split;
  - the target encoder (a rescaled scalar, or one-hot rows);
  - `predict`;
  - the mini-batch training loop, which updates the weight and bias arrays in place. Those arrays are the very arrays `W_init` and `b_init` refer to.

Floats are Dafny `real`s. NaN is a separate value (`Numerics.Num`).
The Python and numpy exceptions a core operation can raise are `Err`
outcomes of `Numerics.Result`. The one exception is the broadcast
`ValueError` of `compute_spike_rates`: `SpikeData.SpikeDataset.ComputeSpikeRates`
reports it as `ok == false` and leaves the rate array unchanged.

The modules follow the source files:

- `numerics.dfy` (`Numerics`): sums, means, NaN, matrices as row sequences, and the contents of a 2-D array.
- `convolution.dfy` (`Convolution`): numpy convolution in `'full'` and `'same'` mode, and the box filter.
- `spike_data.dfy` (`SpikeData`): the table, and the `SpikeDataset` class, whose `spikeRates` is an `array2` rewritten in place.
- `plot_data.dfy` (`PlotData`): `PopulationVector` and the `GetCorrelation` loop.
- `train_readout.dfy` (`TrainReadout`): the split, `GenerateTarget` (a loop filling an `array2`), the `ReadoutNet` class, `Predict` and `Train`.

Behaviour of the code worth noting:

- In `'same'` mode `np.convolve` yields `max(T, w)` values. A table shorter than the window gets `w` rate rows, and construction does not fail (`SpikeData.RatesShape`).
- With one output, a constant integer signal is encoded as all-NaN targets, from `0 / 0`; encoding does not raise (`TrainReadout.ScalarTargets`). With two or more outputs the same signal raises at `int(nan)`.
- `np.mean` propagates NaN, so one undefined pairwise correlation makes that timestep's mean correlation NaN (`PlotData.CorrelationValue`).
- `predict` scales by `np.max(target_test) - np.max(target_test)`. Every prediction is therefore 0, or NaN (`TrainReadout.PredictIgnoresNetwork`).
- `plot_error` calls `plt.axhline(self.test(), label='Test Error', '--', color='red')` (python/train_readout.py:98): a positional argument after a keyword argument, which is a Python SyntaxError. As written, `train_readout.py` cannot be imported, so no method of `readoutNet` runs. The model describes the method bodies of `__init__`, `generate_target`, `train` and `predict` as they would run once that line is corrected.
- In `train`, `y` is `np.max` of the sigmoid outputs: one scalar per batch. `dW` is divided by the nominal batch size, while `db` is a mean over the rows actually present.

## Model

| member | source | states |
|---|---|---|
| Numerics.SumRowsColumns | python/plot_data.py:99-100 | summing a matrix column by column gives the same total as row by row (used to swap the two averages of the population vector) |
| Numerics.MeanNum | python/plot_data.py:119 | `np.mean` over floats is NaN exactly when the series is empty or holds a NaN; otherwise the mean times the count is the sum |
| Numerics.ToMatrixEquals | python/spike_data.py:11 | a 2-D float array equals the row-sequence matrix that agrees with it entry by entry, so array contents can be compared as values |
| Convolution.FullConvolve | python/spike_data.py:11 | `'full'` convolution has len(a) + len(v) - 1 outputs |
| Convolution.FullConvolveEnds | python/spike_data.py:11 | the full convolution starts with a[0] * v[0] and ends with a[-1] * v[-1], where the operands just overlap; the first `'same'` output, the mode the source calls, is a[0] * v[0] when the shorter operand has at most two entries |
| Convolution.SameConvolve | python/spike_data.py:11 | `'same'` convolution has max(len(a), len(v)) outputs |
| Convolution.MovingAverage | python/spike_data.py:11 | the box filter has max(T, w) outputs |
| Convolution.ConvOnesPrefix | python/spike_data.py:11 | convolving with ones sums the samples of the window (m - w, m], clipped to the series |
| Convolution.MovingAverageAt | python/spike_data.py:11 | output k of the box filter is the clipped w-wide window sum starting at k + (min(T, w) - 1) / 2 - w + 1, divided by w |
| Convolution.WindowWidth | python/spike_data.py:11 | a clipped window has at most w samples, and exactly w iff it lies inside the series |
| Convolution.WindowAverageBounded | python/spike_data.py:11 | a clipped window of samples in [0, mx], divided by w, lies in [0, mx] |
| Convolution.MovingAverageBounded | python/spike_data.py:11 | samples in [0, mx] give box-filter outputs in [0, mx] |
| Convolution.WindowAverageOfOnes | python/spike_data.py:11 | over all-ones samples, a window average is 1 iff the window lies inside, and in [0, 1] always |
| Convolution.MovingAverageOfOnes | python/spike_data.py:11 | on an all-ones channel an output is 1 iff its window lies inside; the boundary outputs stay below 1 because the clipped sum is still divided by w |
| SpikeData.Rates | python/spike_data.py:11 | the rates have one column per channel, and none without channels |
| SpikeData.RatesShape | python/spike_data.py:11 | with channels, the rates have T rows iff T >= w, and never fewer than T |
| SpikeData.RatesAt | python/spike_data.py:11 | rate (k, c) is channel c's clipped window sum divided by w |
| SpikeData.ChannelsIndependent | python/spike_data.py:11 | column c of the rates depends on spike column c alone |
| SpikeData.RatesBounded | python/spike_data.py:11 | spike values in [0, mx] give rates in [0, mx] |
| SpikeData.OnesChannelRates | python/spike_data.py:11 | an always-firing channel has rate 1 exactly where the window fits and strictly below 1 where the window is clipped; the first rate is below 1 when w >= 2 |
| SpikeData.SpikeDataset.constructor | python/spike_data.py:6-11 | time is column 0, input signal column 1, spike times columns 2.., and the rate array holds `Rates` of the spike columns |
| SpikeData.SpikeDataset.ComputeSpikeRates | python/spike_data.py:28-32 | succeeds iff there are no channels or the rate array has max(T, 10) rows; then the array holds the width-10 rates; otherwise it is unchanged |
| SpikeData.FromTable | python/spike_data.py:6-11 | fails iff fewer than two columns, or channels with an empty table or w < 1, naming the numpy error; otherwise builds the dataset as the constructor does |
| SpikeData.RecomputeTwice | python/spike_data.py:28-32 | for w = 10, recomputing the rates once or twice leaves the constructor's rates unchanged |
| PlotData.RowMeans | python/plot_data.py:99-100 | `np.mean(..., axis=1)` gives one value per row |
| PlotData.RowMeansTotal | python/plot_data.py:99-100 | each row mean times the channel count is the row's total, and the row means sum to the table's total over the channel count |
| PlotData.PopulationVector | python/plot_data.py:95-101 | fails iff there are no channels (axis error) or the rates do not have T rows (broadcast error); otherwise row t is [mean of spike_times[t], mean of spike_rates[t]] |
| PlotData.ColumnWindowSums | python/spike_data.py:11 | the window sum behind rate t of channel c is column c's total over the window's rows |
| PlotData.MeanRateAt | python/plot_data.py:100 | the mean rate at t is the window total divided by w and by N |
| PlotData.WindowOfMeans | python/plot_data.py:99 | a stretch of per-row means sums to the rows' total divided by N |
| PlotData.WindowSumOfMeans | python/plot_data.py:99 | the window sum of the mean activity is the window total divided by N |
| PlotData.SmoothedActivityAt | python/plot_data.py:99 | the box-filtered mean activity at t is the window total divided by N and by w |
| PlotData.MeanRateIsSmoothedActivity | python/plot_data.py:99-100 | for T >= w, averaging the rates over channels equals box-filtering the channel-averaged activity |
| PlotData.PopulationRateSmoothsActivity | python/plot_data.py:95-101 | with the constructor's rates and T >= w, column 1 of the population vector is column 0 box-filtered with width w |
| PlotData.PopulationVectorBounded | python/plot_data.py:99-100 | spike values in [0, mx] keep both population-vector columns in [0, mx] |
| PlotData.MeanBounded | python/plot_data.py:99-100 | the mean of values in [0, mx] lies in [0, mx] |
| PlotData.WindowRows | python/plot_data.py:115 | outside the sentinel region the window is exactly the 100 rows t - 50 .. t + 49, in bounds |
| PlotData.UpperPairsFromCount | python/plot_data.py:119 | the pairs after row lo number (n - lo)(n - lo - 1) / 2 |
| PlotData.UpperPairsFromMembers | python/plot_data.py:119 | a pair is listed iff lo <= i < j < n |
| PlotData.UpperPairsFromOrdered | python/plot_data.py:119 | the pairs come in strictly increasing row-major order |
| PlotData.UpperPairsSpec | python/plot_data.py:119 | `np.triu_indices(N, k=1)` yields N(N-1)/2 pairs, exactly those with i < j, in row-major order |
| PlotData.PairCorrelations | python/plot_data.py:117-119 | one coefficient per channel pair, the pair's Pearson value |
| PlotData.CorrelationAt | python/plot_data.py:110-120 | entry t of the correlation series is NaN in the sentinel region and whenever there are fewer than two channels (no pairs to average) |
| PlotData.GetCorrelation | python/plot_data.py:103-121 | fails iff N == 1 and some timestep is outside the sentinel region (index into a scalar); otherwise yields T values, each the timestep's `CorrelationAt` |
| PlotData.CorrelationSentinel | python/plot_data.py:110-112 | the first and last 50 timesteps are NaN |
| PlotData.CorrelationValue | python/plot_data.py:115-120 | for N >= 2 inside the region, the value is NaN iff some pair's coefficient is NaN, otherwise the mean of the N(N-1)/2 coefficients |
| TrainReadout.MinOfSpec | python/train_readout.py:25 | `np.min` lies below every sample and is one of them |
| TrainReadout.MaxOfSpec | python/train_readout.py:26 | `np.max` lies above every sample and is one of them |
| TrainReadout.ArgMax | python/train_readout.py:91 | the index of a maximum, the first one |
| TrainReadout.SplitIndex | python/train_readout.py:9-10 | the split row never exceeds T; it is floor(train_size * T) for a fraction in [0, 1], and T for a fraction of 1 or more |
| TrainReadout.TruncFraction | python/train_readout.py:9-10 | `int(train_size * T)` of a fraction in [0, 1] is the floor of the product and lies in [0, T]; of a fraction of 1 or more it is at least T |
| TrainReadout.SplitPartitions | python/train_readout.py:9-10 | the train and test partitions put back together are the whole table; for a fraction in [0, 1] the split row is floor(fraction * T) |
| TrainReadout.TargetRangeBrackets | python/train_readout.py:24-26 | floor(min) <= every sample <= ceil(max), and the two are equal iff the signal is one integer value throughout |
| TrainReadout.ScalarTargets | python/train_readout.py:28-29 | with one output, targets are (x - floor(min)) / (ceil(max) - floor(min)) in [0, 1], or all NaN for a degenerate range |
| TrainReadout.ClassIndexInRange | python/train_readout.py:31-33 | a sample's one-hot position lies in [0, output_size - 1], and the top of an integer range takes the last one |
| TrainReadout.ClassIndexMonotone | python/train_readout.py:31-33 | a larger sample never gets a smaller one-hot position |
| TrainReadout.OneHotTargets | python/train_readout.py:30-33 | with two or more outputs, each target row holds exactly one 1, at int(scaled) in range, and 0 elsewhere |
| TrainReadout.DegenerateTargets | python/train_readout.py:31-33 | with two or more outputs, encoding raises on int(nan) iff the signal is one integer value throughout |
| TrainReadout.GenerateTarget | python/train_readout.py:22-34 | the loop filling the zero matrix returns or raises exactly what `EncodeTarget` gives |
| TrainReadout.EncodeTarget | python/train_readout.py:22-34 | a successful encoding has output_size >= 1, a non-empty signal and one entry (one output) or one row of output_size entries (more outputs) per sample; the rows are one-hot by `TrainReadout.OneHotTargets`; with one output it succeeds exactly when the signal is non-empty |
| TrainReadout.TargetMatrix | python/train_readout.py:46 | scalar targets act as a one-column matrix with one row per sample |
| TrainReadout.Affine | python/train_readout.py:49 | x . W + b has one row per input row and one column per output |
| TrainReadout.MaxEntrySpec | python/train_readout.py:51 | `np.max` over a whole matrix bounds every entry and is one of them |
| TrainReadout.PeakActivationSpec | python/train_readout.py:49-51 | y is the largest sigmoid activation over every row and output of the batch, and one of them: one scalar per batch |
| TrainReadout.Delta | python/train_readout.py:53-56 | delta has the target's shape |
| TrainReadout.WeightGradient | python/train_readout.py:56 | dW has W's shape |
| TrainReadout.BiasGradient | python/train_readout.py:57 | db has b's length |
| TrainReadout.RowSquares | python/train_readout.py:64 | the squared deviations of one target row from y sum to a non-negative total, zero when every entry of the row equals y |
| TrainReadout.SquaredErrorSpec | python/train_readout.py:64 | the batch error `np.mean((batch_target - y) ** 2)` is never negative, and zero when every target entry equals y |
| TrainReadout.BatchGradient | python/train_readout.py:48-64 | one batch's dW, db have the shapes of W and b |
| TrainReadout.AddScaledRows | python/train_readout.py:60 | W + lr * dW keeps W's shape |
| TrainReadout.AddScaled | python/train_readout.py:61 | b + lr * db keeps b's length |
| TrainReadout.Update | python/train_readout.py:60-61 | the updated parameters keep their shapes |
| TrainReadout.BatchIndex | python/train_readout.py:43 | batch j starts inside the data iff j < ceil(n / batch_size) |
| TrainReadout.BatchesPrefix | python/train_readout.py:43-46 | the first k batches are the first min(k * batch_size, n) rows, back to back |
| TrainReadout.BatchesCover | python/train_readout.py:43-46 | all the batches of an epoch together are exactly the training rows, in order |
| TrainReadout.BatchSizes | python/train_readout.py:43-46 | every batch has batch_size rows except the last, which has between 1 and batch_size |
| TrainReadout.BatchShape | python/train_readout.py:45-46 | a batch of data and its targets have the same non-zero number of rows |
| TrainReadout.BatchStep | python/train_readout.py:45-64 | one batch step keeps the parameter shapes |
| TrainReadout.EpochPrefix | python/train_readout.py:42-64 | the parameters after k batches keep their shapes |
| TrainReadout.TrainEpochs | python/train_readout.py:41-67 | e epochs record exactly e errors and keep the parameter shapes |
| TrainReadout.ErrorsExtend | python/train_readout.py:41-67 | training longer appends error entries and never changes the earlier ones |
| TrainReadout.AddScaledInPlace | python/train_readout.py:60 | `W_train += lr * dW` in place: the array afterwards holds the old weights plus lr * dW |
| TrainReadout.AddScaledVectorInPlace | python/train_readout.py:61 | `b_train += lr * db` in place |
| TrainReadout.ApplyBatch | python/train_readout.py:45-64 | one batch computed and applied in place gives `BatchStep` of the old parameters |
| TrainReadout.RunEpoch | python/train_readout.py:42-64 | one epoch in place gives the parameters and summed error of `EpochPrefix` over all its batches |
| TrainReadout.RunEpochs | python/train_readout.py:41-67 | the epoch loop leaves W, b and the error array equal to `TrainEpochs` of the starting parameters |
| TrainReadout.ReadoutNet.constructor | python/train_readout.py:8-20 | the fields take the given partitions and targets; W and b are fresh arrays from the initialisers, and W_init, b_init are the same arrays |
| TrainReadout.TargetRange | python/train_readout.py:87 | `np.max(target_test) - np.max(target_test)` is 0, or NaN when the test targets hold NaN |
| TrainReadout.ReadoutNet.NetOut | python/train_readout.py:86 | net_out has one row per test row and one column per output |
| TrainReadout.ReadoutNet.Predict | python/train_readout.py:84-94 | one output gives a test-rows x 1 matrix; more give one value per test row |
| TrainReadout.ReadoutNet.Train | python/train_readout.py:36-75 | raises iff epochs < 0, or epochs > 0 with a zero step or an unbroadcastable one-output update; on error W and b are unchanged; on success W, b (still W_init, b_init) and error are those of `TrainEpochs`, with one error per epoch |
| TrainReadout.PredictIgnoresNetwork | python/train_readout.py:87-93 | every prediction is 0, or NaN when the test targets hold NaN, whatever the weights |
| TrainReadout.NewReadout | python/train_readout.py:8-20 | the split is at int(train_size * T) for both data and signal; construction raises iff encoding either partition raises (train first); otherwise the net holds those partitions and targets, with input_size = N, and fresh W and b filled from the initialisers that stand for `np.random.randn` |

## Left out

- Loading the table from a file (`spikeData.load_data`) is not modelled. The dataset is built from an already parsed `Table`.
- Plotting (every `plot_*` function, `plot_error`) and printing are not modelled.
- `readoutNet.test` is not part of this model.
- TrainReadout.ReadoutNet.constructor: `readoutNet.__init__` sets no `error` attribute, so reading it before `train` raises AttributeError. The model starts `error` as an empty array instead.
- `python/run_verilog.py`, `python/load_plot_data.py` and `test.py` are not part of this model.
- Floating point is modelled as exact real arithmetic with a separate NaN. Rounding, infinities and the sign of zero are not modelled.
- Pearson's coefficient (`np.corrcoef`), the sigmoid (`1 / (1 + np.exp(-z))`), `np.sqrt` and `np.random.randn` are parameters. The model does not define them.
- Python default arguments (`w=10` of `spikeData.__init__`; `output_size=32`, `lr=0.01` and `train_size=0.8` of `readoutNet.__init__`; `epochs=1000` and `batch_size=100` of `train`) are not modelled as defaults. Every one is an explicit parameter, so each default value is one of the cases covered.
- NaN inputs are not modelled: spike values and the input signal are finite reals.
- TrainReadout.ReadoutNet.Train: requires finite training targets. It does not model training on the NaN targets that one output and a constant integer signal produce.
- TrainReadout.GenerateTarget: the one-output result is a scalar sequence. A NaN sample (`int(nan)` on a NaN input) is not modelled.
