# Engineering Waveform Tool — Dafny model

A Dafny model of the core of the ELEC2645 "Engineering Waveform Tool", a
menu-driven console program in C (`main.c`). It keeps one waveform in a
global buffer of 1000 doubles and offers two families of menu items:

- analysis of the stored samples: minimum, maximum and peak-to-peak, DC
  offset, mean square (RMS), crest factor, zero-crossings, peak detection,
  moving-average smoothing in place, classification and frequency estimate;
- small engineering calculators: series/parallel resistors, the quadratic
  solver, a unit converter and an ADC sensor converter.

A C `double` is modelled as an exact `real`. The modules follow the
program's structure:

| module | file | what it holds |
|---|---|---|
| `RealSeqs` | `real_seqs.dfy` | `Abs`, `Sum`, `Mean` over `seq<real>` and their bounds |
| `Wrappers` | `wrappers.dfy` | `Option` |
| `Waveform` | `waveform.dfy` | the analysis helpers: scans, sums, zero-crossings, peaks, smoothing, sine generation |
| `SignalAnalysis` | `signal_analysis.dfy` | the reports of menus 3, 5, 8 and 18 |
| `SampleBuffer` | `sample_buffer.dfy` | the global buffer as a class (`samples`, `sampleCount`, `dataAvailable`) |
| `InputValidation` | `input_validation.dfy` | `is_integer_string` |
| `Resistors`, `Quadratic`, `Units`, `Sensors` | `resistors.dfy`, `quadratic.dfy`, `units.dfy`, `sensors.dfy` | menus 15, 16, 17 and 19 |

The read-only analysis helpers receive the valid prefix `samples[0..n)` as a
sequence. The C code passes the array and `n` instead. Smoothing and sine
generation work on the array in place, as in C.

The C library's `sqrt` and `sin` are not modelled:

- `sin` is a parameter of sine generation.
- `sqrt` is a parameter of the quadratic solver.
- The RMS that `calc_rms` returns is an input satisfying `IsRms`: it is non-negative and its square is the mean square that `CalcMeanSquare` computes.

Lemmas then state what holds when these functions return true values.

Each input-reading step (`safe_get_int`, `safe_get_double`) is modelled in one of these ways:

- The value read becomes a parameter.
- A read failure that returns before anything changes is modelled as the operation not being invoked.
- A failure halfway through manual entry is modelled by the shorter `readings` sequence.

The interactive loops of menus 17 and 19 become methods over the sequence of requests the user enters.

## Model

| member | source | states |
|---|---|---|
| Waveform.FindMin | main.c:1141-1150 | the result is one of the samples and is <= every sample |
| Waveform.FindMax | main.c:1152-1161 | the result is one of the samples and is >= every sample |
| Waveform.CalcAverage | main.c:1163-1171 | the result is the sum of the samples divided by n |
| Waveform.MinAverageMax | main.c:1141-1171 | any lower and upper bound of the samples (so the results of find_min and find_max) bracket the average |
| Waveform.CalcMeanSquare | main.c:1173-1181 | the accumulated sum of squares over n is the mean square; it is >= 0 and is 0 exactly when every sample is 0 |
| Waveform.MeanSquareZero | main.c:1173-1181 | the mean square is non-negative and vanishes exactly on the all-zero signal |
| Waveform.MeanSquareWithin | main.c:1173-1181 | with every magnitude in [low, peak] the mean square lies in [low^2, peak^2] |
| Waveform.RmsZeroIffSilent | main.c:1173-1181 | the RMS is 0 exactly when every sample is 0 |
| Waveform.RmsWithin | main.c:1173-1181 | the RMS lies between the smallest and largest sample magnitude |
| Waveform.CountZeroCrossings | main.c:1183-1193 | the count is the number of indices i in [1, n) whose neighbours a[i-1], a[i] are strictly opposite in sign, and is at most max(0, n-1) |
| Waveform.ZeroSampleNeverCrosses | main.c:1186-1187 | a sample equal to 0 takes part in no crossing on either side |
| Waveform.AlternatingCrossesEverywhere | main.c:1183-1193 | when every adjacent pair changes sign, all n-1 pairs are counted |
| Waveform.DetectPeaks | main.c:1196-1212 | none when n < 3; otherwise it reports exactly the strict interior local maxima, with their values, in strictly ascending index order, and the count equals the number reported |
| Waveform.Snapshot | main.c:1220-1222 | the scratch copy holds exactly a[0..n) |
| Waveform.WindowAverage | main.c:1225-1239 | the inner loop's sum / count is the mean of temp[start..end] |
| Waveform.RewriteFromSnapshot | main.c:1224-1240 | a[i] becomes the mean of the snapshot over the window [max(0, i-half), min(n-1, i+half)] for every i < n; the rest of a is untouched |
| Waveform.SmoothMovingAverage | main.c:1215-1241 | a[0..n) becomes the clipped-window moving average of the ORIGINAL samples with half = windowSize / 2; a[n..] is untouched |
| Waveform.SmoothedAt | main.c:1228-1232 | the clipped window is inside [0, n) and the smoothed value is the mean over it |
| Waveform.SmoothedWithinWindow | main.c:1224-1240 | smoothing keeps the length, and each output lies within any bounds of its original window (so between the window's min and max) |
| Waveform.SmoothWidthOneIsIdentity | main.c:1218 | a window of size 1 leaves the samples unchanged |
| Waveform.SmoothConstantIsFixed | main.c:1224-1240 | a constant signal is unchanged by any window |
| Waveform.GenerateSineWave | main.c:1244-1251 | a[i] = amplitude * sin(2 pi * periods * i / n) for i < n; the rest of a is untouched |
| Waveform.SineSampleBounded | main.c:1244-1251 | when sin stays in [-1, 1] every generated sample is bounded by abs(amplitude) |
| SignalAnalysis.BasicInfo | main.c:226-228 | min and max are samples bounding all samples; peak-to-peak = max - min is >= 0 and is 0 exactly for a constant signal |
| SignalAnalysis.PeakIsLargestMagnitude | main.c:267-269 | the larger of abs(max) and abs(min) is the largest sample magnitude |
| SignalAnalysis.CrestAtLeastOne | main.c:274-277 | a bound on every magnitude divided by a non-zero RMS is at least 1 |
| SignalAnalysis.CrestFactor | main.c:267-281 | the peak is the largest magnitude; the crest factor is undefined exactly for the all-zero signal, and otherwise is peak / rms >= 1 |
| SignalAnalysis.Classify | main.c:373-381 | first match wins, each label stated as an iff: Flat exactly when rms == 0; Mostly DC exactly when rms != 0, abs(dc) > 0.8 rms and there is no crossing; AC exactly when neither earlier rule matches and crossings > n / 10; Mixed otherwise (so only with at most n / 10 crossings) |
| SignalAnalysis.ClassifySamples | main.c:369-381 | the label is the rule chain applied to the average, the RMS and the crossing count; Flat exactly when every sample is 0 |
| SignalAnalysis.ConstantIsMostlyDC | main.c:373-381 | a constant non-zero signal is labelled Mostly DC |
| SignalAnalysis.AlternatingIsOscillating | main.c:373-381 | a signal that changes sign at every step is labelled AC / oscillating |
| SignalAnalysis.EstimateFrequency | main.c:871-888 | rejected exactly when fs <= 0, too few crossings exactly when fewer than 2 crossings or samples; otherwise freq > 0, freq * period = 1, freq * totalTime = cycles = crossings / 2, and freq = crossings * fs / (2 (n - 1)) |
| SampleBuffer.Buffer.Contents | main.c:18-20 | the valid samples have length sampleCount, and at least one when the data flag is set |
| SampleBuffer.Buffer.constructor | main.c:18-20 | the zero-initialised buffer with no samples and the flag clear satisfies the buffer invariant |
| SampleBuffer.Buffer.EnterSamples | main.c:188-212 | keeps the invariant (flag set exactly when 1 <= sampleCount <= 1000); an out-of-range count clears count and flag; otherwise count = the number of samples read, the first count slots hold them, the rest keep their old values |
| SampleBuffer.Buffer.GenerateSine | main.c:452-480 | keeps the invariant; an out-of-range n changes nothing; otherwise the first n slots hold the test signal, count = n and the flag is set |
| SampleBuffer.Buffer.Smooth | main.c:395-416 | keeps the invariant and never changes count or flag; smooths exactly when data is available and the window is odd and in [1, sampleCount], and then the valid samples become their moving average |
| SampleBuffer.Buffer.Classification | main.c:363-381 | no label without data; otherwise the rule chain over the valid samples, Flat exactly when they are all 0 |
| SampleBuffer.Buffer.FrequencyAnalysis | main.c:858-888 | no estimate without data; otherwise the estimate from the zero-crossings of the valid samples |
| InputValidation.IsIntegerString | main.c:1263-1287 | accepts exactly the C strings made of an optional '+' or '-' followed by one or more digits '0'..'9' |
| InputValidation.NumeralsAccepted | main.c:1263-1287 | every decimal numeral, bare or signed, is an accepted integer string once NUL-terminated |
| InputValidation.RejectsEmptyAndLoneSign | main.c:1265-1277 | the empty string, a lone sign and a doubled sign are rejected |
| Resistors.CombineResistors | main.c:622-676 | fewer than 1 or more than 20 resistors is rejected; series gives the sum; parallel with a zero resistor is an error; otherwise 1 / (sum of 1/R) when that sum is non-zero, else an invalid configuration; any other mode is invalid |
| Resistors.ParallelAtMostEachBranch | main.c:657-670 | positive resistances in parallel give a positive total no larger than any of them |
| Resistors.SeriesAtLeastEachBranch | main.c:651-656 | non-negative resistances in series give at least each of them |
| Resistors.EqualParallel | main.c:657-670 | n equal resistances R in parallel give R / n |
| Quadratic.SolveQuadratic | main.c:696-727 | no solution exactly when a = b = 0; a linear root x with b x + c = 0 exactly when a = 0 and b != 0; otherwise two real, one repeated (a true root) or complex roots exactly as the discriminant is > 0, = 0 or < 0 |
| Quadratic.RepeatedRootSolves | main.c:716-717 | with a zero discriminant -b / 2a is a root |
| Quadratic.RootFromSquareRoot | main.c:709-712 | (-b + s) / 2a is a root whenever s^2 is the discriminant |
| Quadratic.TwoRealRootsSolve | main.c:709-715 | with a true square root, x1 and x2 are distinct roots |
| Quadratic.ComplexRootsSolve | main.c:720-726 | with a true square root of -D, realPart ± imagPart i is a complex root |
| Units.Convert | main.c:753-849 | 0 leaves; a category outside 1..4 or a direction other than 1, 2 is rejected; a conversion keeps the physical quantity (result * size of target unit = value * size of source unit) between the category's unit pair in the chosen direction |
| Units.RoundTrip | main.c:774-840 | converting in one direction and back returns the value entered |
| Units.RunConverter | main.c:740-850 | the requests are served in order up to, not including, the first with category 0 |
| Sensors.Sense | main.c:922-977 | -1 leaves; a reading outside 0..4095 or Vref <= 0 is rejected; an accepted reading gives the voltage adc * vref / 4095, and choice 0 leaves, 1, 2 and 3 give temperature, pressure and acceleration, any other choice is invalid (each an iff); temperature * 0.01 V, pressure * 5 V / 100, and acceleration * 0.3 V + 1.65 V each give back the voltage |
| Sensors.SenseVoltage | main.c:939 | every accepted reading gives the voltage adc * vref / 4095 |
| Sensors.VoltageWithinReference | main.c:939 | the voltage lies in [0, vref], 0 at reading 0 and vref at full scale |
| Sensors.VoltageMonotone | main.c:939 | a higher reading never gives a lower voltage |
| Sensors.PressureWithinRange | main.c:964-965 | with Vref at most 5 V the pressure stays within 0-100 kPa |
| Sensors.RunSensorConverter | main.c:912-978 | the requests are served in order and the loop stops right after the first that leaves (reading -1 or sensor 0) |

## Left out

- Console and file I/O:
  - every `printf`;
  - `safe_get_int`, `safe_get_double`, `safe_get_filename` and `flush_input_buffer` (main.c:1255-1392), whose `fgets`/`strtod`/`atoi` behaviour belongs to the C library;
  - the report writer of menu 7 (main.c:304-358);
  - the help text of menu 21.
- The menu loop `main_menu` / `select_menu_item` / `go_back_to_main` (main.c:82-170): it is control plumbing that ends in `exit()`.
- Menus 13, 14, 20 and 21: the basic calculator, Ohm's law and the RC filter helper (which uses `M_PI`) fall outside the modelled core.
- `sqrt` and `sin` are parameters, not functions of the model (see above). Lemmas about their results assume they return true roots or stay in [-1, 1].
- IEEE-754 rounding, overflow, NaN and infinities. Every property is proved over exact reals. For example, the ×1000/÷1000 round trip and `peak / rms >= 1` hold exactly only in this abstraction.
- InputValidation.IsIntegerString: the NULL-pointer check of main.c:1265 is not modelled; the string is always present and NUL-terminated.
- SampleBuffer.Buffer.EnterSamples: does not model a failure while reading the count itself, which returns before any state changes (the method is then simply not invoked).
- Units.RunConverter and Sensors.RunSensorConverter: a failed read makes the C loop print "Input error" and ask again. The read helpers fail only at end of input or on a read error (main.c:1297-1300, 1326-1329), so in C the retry normally fails again and the loop prints "Input error." forever. The model instead leaves such requests out and stops when the request sequence runs out.
- SignalAnalysis.ClassifySamples and SignalAnalysis.CrestFactor: take the RMS as an input satisfying `IsRms` instead of computing `sqrt(sumSq / n)`.
- The `signalType` string written by menu 8 is modelled as the `SignalType` label, not as its text.
