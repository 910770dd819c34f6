# TC_counter: oscillator stability measurements, modelled in Dafny

TC_counter is three Python scripts. They drive an Agilent 53132A frequency counter,
and one of them also drives a Fluke 5720A calibrator, over GPIB. Each burst of
measurements goes into small text records:

- `counter.py` takes one burst of N frequency readings. It writes the raw record and
  the relative record, then resets and closes the counter.
- `counter2.py` takes one burst, then resets and closes the counter. It then writes
  three records: raw, relative, and relative with a least-squares straight line
  removed ("drift compensated").
- `counter4.py` sweeps the calibrator over the voltages 0, 1, 2 V and the frequencies
  0, 1000 Hz. The rule "zero volts and a positive frequency" breaks the inner loop.
  At every kept point it:
  - sets the calibrator and waits `wait` seconds;
  - runs `rep` bursts, each after a 60 s pause;
  - writes three records per burst, named after the timestamp and the point.

The model has one `Instruments.Bench` object. It stands for the two instruments, the
clock and the file system. Every effect of a script is one event of a single trace:
- a command written to a device;
- a query and its answer;
- a trigger, a read and its answer;
- a close, a sleep;
- a record file written, with its name and its lines.

What the counter answers is the next element of an abstract reply stream. What the
timestamp formatting yields is the next element of an abstract clock.

The scripts are methods on the bench:
- `Protocol.Burst`: the burst.
- `SingleBurst.MeasurePlain`: counter.py.
- `SingleBurst.MeasureDetrended`: counter2.py.
- `Sweep.RunSweep` over `Sweep.MeasureRow`, `Sweep.MeasurePoint` and `Sweep.MeasureAt`:
  counter4.py.

Each method is proved to leave exactly the trace of a pure specification function of
the reply stream and the clock. The lemmas then state the promised properties of those
functions:
- the commands and the order they come in;
- exactly N trigger/read pairs, whose answers are the samples in read order;
- which files are written, and when relative to the reset and the close;
- how and where an exception stops a script;
- the kept sweep points;
- the counts of bursts and files;
- the algebra of the two numeric steps.

The numeric steps are pure functions over exact reals:
- `Normalization.Normalize`: the mean of the burst, then `(x_i - m) / m` for each reply.
- `Drift.RemoveDrift`: the least-squares line through `(i, y[i])`, from the closed-form
  normal equations, subtracted from the series.

Python's `float()` is the parameter `float` of the normalisation. Its instance
`Text.ParseFloat` models the decimal forms a counter reply takes.

Where the scripts behave in ways a reader might not expect, the model follows the code:
- The mean counts an empty reply as 0. The next line converts every reply again,
  without that guard. So an empty reply makes the normalisation raise
  (`Normalization.EmptyReplyAborts`); it does not give -1.
- A burst with a zero mean raises ZeroDivisionError (`Normalization.ZeroMeanAborts`).
  An empty burst raises StatisticsError in the mean.
- With N = 1 the least-squares solver returns its minimum-norm solution: slope 0,
  intercept y[0]. `Drift.Fit` does the same rather than rejecting N = 1.
- If normalisation raises, counter.py stops after its raw record. It has not yet reset
  or closed the counter (`SingleBurst.PlainAbort`). counter2.py has already done both
  (`SingleBurst.DetrendedAbort`).
- counter4.py resets the counter after every burst but never closes it. It puts the
  calibrator in standby only at the start of each point, so after the last point the
  calibrator is left operating.
- The files called "ppm" hold plain ratios; no factor of 10^6 is applied.

## Model

| member | source | states |
|---|---|---|
| Text.IntToString | counter4.py:133 | str() of an int is non-empty, starts with '-' exactly when the int is negative, and is digits elsewhere |
| Text.ParseIntToString | counter4.py:133 | float() of str(i) gives back i: the decimal rendering of an int reads back as the same number |
| Text.ReplaceChar | counter4.py:135 | same length; every occurrence of the replaced character becomes the replacement, every other character is kept in place |
| Text.RemoveChar | counter4.py:139 | the removed character no longer occurs, every other character is kept with its multiplicity, and a string without it is unchanged |
| Text.RemoveCharAppend | counter4.py:139 | removal works piece by piece: what is left of `s + t` is what is left of `s` followed by what is left of `t`, so the kept characters stay in their order |
| Text.RemoveLineEnd | counter4.py:139 | a reply without line ends followed by one `'\n'` loses exactly that `'\n'` and nothing else |
| Text.BlankIsNotANumber | counter2.py:103 | float() of an empty or all-whitespace string raises ValueError |
| Text.ParseIgnoresLineEnd | counter2.py:103 | float() of a reply ignores a trailing line end: float(s + "\n") == float(s) |
| Records.RecordShape | counter4.py:133-140 | a record has exactly 3 + N lines: title, kind and observation header, then one line per row in row order, each its row without '\n' and with every other character kept (with its multiplicity); a row without '\n' is its line unchanged |
| Records.ReplyLine | counter4.py:133-140 | the line written for a reply `u` or `u + "\n"` (with `u` free of line ends) is exactly `u`, characters in order |
| Records.TitleShowsTimestamp | counter4.py:135 | the title shows the timestamp character by character with '_' turned into a space, and contains no '_' |
| Records.FileNamesDistinct | counter2.py:92-129 | the three file names of one stem are equal only for the same record kind |
| Records.IntToStringInjective | counter4.py:133 | str() of an int determines the int |
| Records.SweepStemInjective | counter4.py:133 | the sweep stem "<ts>_<v>V_<f>Hz" determines the voltage and the frequency |
| Normalization.MeanTerms | counter2.py:102 | the mean's terms exist exactly when every reply is empty (counted as 0) or converts; they are then one per reply in order; otherwise the error names a reply that does not convert |
| Normalization.Mean | counter2.py:102 | the mean exists exactly for a non-empty burst whose terms all exist; an empty burst is StatisticsError; mean times N equals the sum of the terms |
| Normalization.Deviations | counter2.py:103 | succeeds exactly when every reply converts and the mean is non-zero (or the burst is empty); yields (x_i - m) / m per reply in order; ZeroDivisionError exactly when the mean is 0 and the first reply converts; a ValueError names a reply that does not convert |
| Normalization.NormalizeSpec | counter2.py:102-103 | normalisation succeeds exactly when the burst is non-empty, every reply is a number and the mean is non-zero, and then yields (x_i - m) / m for each reply, same length and order |
| Normalization.EmptyReplyAborts | counter2.py:102-103 | an empty reply anywhere in the burst makes normalisation fail, although the mean counted it as 0 |
| Normalization.ZeroMeanAborts | counter4.py:143-144 | a numeric, non-empty burst whose values sum to zero fails with ZeroDivisionError |
| Normalization.NormalizedSumIsZero | counter.py:94-95 | the relative values of a successful normalisation sum to exactly 0 |
| Normalization.ParseFloatRejectsEmpty | counter.py:95 | the modelled float() rejects the empty string, as Python's does |
| Normalization.NormalizeCongruent | counter.py:94-95 | normalisation depends only on the numbers the replies convert to: same success, same values |
| Normalization.NormalizeIgnoresLineEnds | counter.py:94-95 | a line end after every reply changes neither whether normalisation succeeds nor its values |
| Normalization.NormalizedKeepsLength | counter4.py:143-144 | a successful normalisation had a non-empty burst and yields one value per reply |
| Drift.RemoveDrift | counter2.py:118-126 | the drift-compensated series has length N, its residuals sum to 0 and are orthogonal to the index vector 0..N-1 |
| Drift.RemoveDriftAt | counter2.py:118-126 | each value of the drift-compensated series is `y[i] - (w[0] * i + w[1])`, with `w` the fitted line |
| Drift.FitSolvesNormalEquations | counter2.py:118-123 | the fitted line satisfies both least-squares normal equations |
| Drift.NormalEquationsCharacterizeFit | counter4.py:159-166 | for N >= 2 a line leaves residuals with zero sum and zero index moment exactly when it is the fitted line |
| Drift.DeterminantPositive | counter4.py:159-163 | for N >= 2 the normal matrix of the design [xi, ones] is non-singular |
| Drift.LineValueAt | counter4.py:164 | the drift at index i is slope * i + intercept |
| Drift.LinearSeriesRecovered | counter2.py:118-126 | a series that is exactly a * i + b is fitted with slope a and intercept b (N >= 2) and its drift-compensated series is all zeros |
| Instruments.CounterArgumentsVerbatim | counter4.py:95-111 | the gate size and the frequency estimate appear verbatim after the fixed ":FREQ:ARM:STOP:TIM " and ":FREQ:EXP1 " prefixes |
| Instruments.SourceArgumentsVerbatim | counter4.py:68-69 | the voltage and frequency commands carry str() of the applied voltage and frequency between their fixed texts |
| Instruments.Bench.constructor | counter4.py:40-50 | a fresh bench has an empty trace and has served no reply and taken no timestamp |
| Instruments.Bench.Write | counter2.py:42 | a write appends one command event for its device and changes nothing else |
| Instruments.Bench.Query | counter2.py:69 | a query answers the next reply of the stream, appends the command with its answer, and consumes one reply |
| Instruments.Bench.AssertTrigger | counter2.py:77 | a trigger appends one trigger event and changes nothing else |
| Instruments.Bench.Read | counter2.py:78 | a read answers the next reply of the stream, appends it, and consumes one reply |
| Instruments.Bench.Close | counter2.py:86 | a close appends one close event and changes nothing else |
| Instruments.Bench.Sleep | counter4.py:78 | a sleep appends its duration and changes nothing else |
| Instruments.Bench.Now | counter4.py:130-131 | the timestamp is the next element of the clock; the trace is unchanged |
| Instruments.Bench.Save | counter4.py:133-140 | writing a record appends its name, kind, timestamp, observation and rows, and changes nothing else |
| Protocol.Initialize | counter2.py:42-46 | the trace gains exactly the five reset/status commands, in order |
| Protocol.Throughput | counter2.py:48-50 | the trace gains exactly the format, function and trigger-level commands, in order |
| Protocol.Gate | counter2.py:52-54 | the trace gains exactly the arming commands, the last one carrying the gate size |
| Protocol.Hardware | counter2.py:56-60 | the trace gains exactly the oscillator, interpolator and display commands, in order |
| Protocol.PostProcessing | counter2.py:62-67 | the trace gains exactly the post-processing, fetch-on-trigger and continuous-mode commands, in order |
| Protocol.Configure | counter2.py:42-70 | the 20 setup commands, then the frequency query, whose answer is the next reply, then the expected-frequency command carrying that answer |
| Protocol.Acquire | counter2.py:76-78 | the result is the next N replies in read order, and the trace gains one trigger/read pair per sample |
| Protocol.Reset | counter2.py:83-85 | the trace gains exactly *RST, *CLS, :INIT:CONT ON |
| Protocol.Burst | counter4.py:83-126 | setup, acquisition and reset, in that order; the samples are the N replies after the estimate |
| Protocol.SetupShape | counter2.py:42-70 | the setup is 22 events: *RST first, the stop-time command with the gate size 11th, 20 counter writes, then the query and the expected-frequency command with its answer; no close |
| Protocol.SetupObserved | counter2.py:42-70 | the setup reads no sample, triggers nothing and writes no file |
| Protocol.AcquireShape | counter2.py:76-78 | the acquisition is 2N events alternating strictly: the k-th trigger, then the read answering the k-th reply |
| Protocol.AcquireObserved | counter2.py:76-78 | the acquisition's reads are exactly the samples in order, it triggers exactly N times, writes no file and does not close |
| Protocol.BurstOrder | counter4.py:83-126 | a burst is 25 + 2N events: the setup with the estimate, N trigger/read pairs of the following replies, then the three reset commands last |
| Protocol.BurstObserved | counter4.py:83-126 | a burst's reads are the samples in order (not the estimate), it triggers exactly N times and writes no file |
| SingleBurst.MeasurePlain | counter.py:41-111 | counter.py leaves exactly the trace and the outcome of its specification function of the reply stream and the clock |
| SingleBurst.MeasureDetrended | counter2.py:42-136 | counter2.py leaves exactly the trace and the outcome of its specification function of the reply stream and the clock |
| SingleBurst.BurstOutcome | counter2.py:102-103 | both scripts end alike on the same burst: normally exactly when N > 0, every reply is a number and the mean is non-zero; N = 0 stops with StatisticsError |
| SingleBurst.EmptyReplyStops | counter.py:94-95 | an empty reply anywhere in the burst stops both scripts with an exception |
| SingleBurst.AcquiredShape | counter.py:41-90 | before normalising, counter.py has done the setup, exactly N trigger/read pairs, then written the raw record of the samples |
| SingleBurst.AcquiredObserved | counter.py:41-90 | up to then counter.py has read every sample in order, triggered N times, written only the raw record and not closed the counter |
| SingleBurst.PlainAcquires | counter.py:41-91 | however counter.py ends, its trace begins with the setup, the N trigger/read pairs and the raw record |
| SingleBurst.PlainObserved | counter.py:74-77 | however counter.py ends, it has read exactly the samples in order and triggered N times |
| SingleBurst.PlainOrder | counter.py:84-111 | after a normal end counter.py has written exactly ts.dat and ts_ppm.dat, both before the reset and the close, which come last |
| SingleBurst.PlainAbort | counter.py:84-95 | a failing normalisation stops counter.py right after the raw record, with the counter never closed |
| SingleBurst.MeasuredShape | counter2.py:42-92 | before normalising, counter2.py has done the whole burst with its reset, closed the counter, then written the raw record |
| SingleBurst.MeasuredObserved | counter2.py:76-99 | up to then counter2.py has read every sample in order, triggered N times and written only the raw record, after the close |
| SingleBurst.DetrendedOrder | counter2.py:83-136 | after a normal end counter2.py's trace is the burst, the close, then the raw, relative and drift-compensated records of the samples, the normalised values and their drift-free series |
| SingleBurst.DetrendedObserved | counter2.py:76-136 | after a normal end counter2.py has written exactly ts.dat, ts_ppm.dat, ts_ppm_nodrift.dat, read the samples in order and triggered N times |
| SingleBurst.DetrendedClosesFirst | counter2.py:83-92 | however it ends, counter2.py writes no file before closing the counter |
| SingleBurst.DetrendedAbort | counter2.py:83-103 | a failing normalisation stops counter2.py after the raw record, with the counter already reset and closed |
| SingleBurst.DetrendedRecords | counter2.py:101-136 | after a normal end, the relative record holds N values summing to 0 and the drift-compensated record N values with zero sum and zero index moment |
| SingleBurst.ResetTail | counter.py:108-111 | counter.py's close is *RST, *CLS, :INIT:CONT ON, then close; no read, trigger or file |
| Sweep.BreakIndex | counter4.py:62-64 | the inner loop stops at the first frequency meeting "v == 0 and f > 0", or after the last |
| Sweep.KeptPoints | counter4.py:56-64 | the kept points are exactly (0,0), (1,0), (1,1000), (2,0), (2,1000): the break drops every later frequency at 0 V |
| Sweep.SourceFirst | counter4.py:65-77 | at every point the calibrator gets STBY, the voltage, the frequency, *CLS and OPER, then the wait sleep, before any counter command |
| Sweep.SourceQuiet | counter4.py:65-74 | the calibrator's part reads nothing, triggers nothing and writes no file |
| Sweep.SweepBurstShape | counter4.py:78-140 | a sweep burst is the 60 s pause, the whole burst with its reset, then the raw record, named after timestamp and point, holding exactly this burst's replies |
| Sweep.SweepBurstEnd | counter4.py:78-144 | a sweep burst consumes 1 + N replies and one timestamp; it ends normally exactly when normalisation succeeds, and otherwise right after its raw record with the normalisation's exception |
| Sweep.SweepBurstDone | counter4.py:143-177 | a sweep burst that ends normally writes, after the raw record, the relative record of the normalised values and the record of those values with the drift removed |
| Sweep.SweepBurstObserved | counter4.py:117-177 | a sweep burst that ends normally reads its N replies in order, triggers N times and writes the three files of its stem |
| Sweep.SweepBurstNormalized | counter4.py:143-167 | with the scripts' normalisation a sweep burst ends normally exactly when N > 0, every reply is a number and the mean is non-zero; then its relative values sum to 0 and its drift-free values have zero sum and moment |
| Sweep.SweepBurstCounts | counter4.py:78-177 | one sweep burst takes 1 + N replies and one timestamp, and when it ends normally triggers N times and writes three files |
| Sweep.RepsCount | counter4.py:77-81 | k repetitions that end normally take k timestamps and write 3k files |
| Sweep.RepsStep | counter4.py:77-81 | a repetition that ends normally follows repetitions that all ended normally and adds one timestamp and three files |
| Sweep.PointCount | counter4.py:65-81 | a point that ends normally takes rep timestamps and writes 3 * rep files |
| Sweep.PointsCount | counter4.py:61-81 | a run of points that ends normally takes rep timestamps and writes 3 * rep files per point |
| Sweep.SweepCount | counter4.py:56-81 | a sweep that ends normally takes 5 * rep timestamps and writes 15 * rep files |
| Sweep.SweepFilesDistinct | counter4.py:133-170 | within one timestamp two sweep file names coincide exactly for the same voltage, frequency and record kind |
| Sweep.PointsAbortPersists | counter4.py:61-144 | once a point stops with an exception, the later points leave no trace |
| Sweep.RepsAbortPersists | counter4.py:77-144 | once a repetition stops with an exception, the later repetitions leave no trace |
| Sweep.MeasureAt | counter4.py:78-177 | one repetition leaves exactly the trace, outcome and cursors of its specification function |
| Sweep.MeasurePoint | counter4.py:65-177 | one point (calibrator, wait, then the rep loop left at the first exception) leaves exactly the trace, outcome and cursors of its specification function |
| Sweep.MeasureRow | counter4.py:62-177 | the frequency loop with its break extends the sweep by exactly the row's kept points |
| Sweep.RunSweep | counter4.py:56-177 | counter4.py leaves exactly the trace, outcome and cursors of its specification function over the kept points |

## Left out

- Bus I/O is not modelled. Opening the GPIB resources and the byte traffic are left
  out; a write is an event, and a query or read answers the next element of an
  abstract reply stream.
- `time.sleep` is an event carrying its duration. No time passes.
- Reading settings.ini is left out. N, `rep`, `wait`, the gate size and the
  observation text are fields of `Basics.Config`.
- `datetime.now()` and its formatting are left out: the clock is an abstract stream of
  strings. File names from two different timestamps are not proved distinct.
- Console `print` messages and the opening and closing of file handles are left out.
  A record is the sequence of its lines.
- IEEE floating point is left out. Values are exact reals. `str()` of a float is the
  abstract `Render` parameter, so a record holds `show(y_i)`. One `Render` stands for
  both `str()` of a Python float (the relative record) and `str()` of a numpy float64
  (the drift-compensated record).
- The drift fit reads back the relative values by `float()` of their rendered text.
  The model takes that round trip as exact and fits the relative reals directly.
- The least-squares solver (SVD) is replaced by the closed-form normal equations.
  Optimality (minimum squared error) is not stated beyond the normal equations.
- Python's `float()` is the parameter `float` of the normalisation. Its instance
  `Text.ParseFloat` covers sign, digits, decimal point, exponent and surrounding
  whitespace. Its whitespace is six of the ASCII characters `float()` strips (space,
  `\t`, `\n`, `\v`, `\f`, `\r`). It does not cover the ASCII separators `\x1c`-`\x1f`,
  which `float()` also strips, nor non-ASCII whitespace (such as `\x85`, `\xa0`), `inf`,
  `nan`, underscores or non-ASCII decimal digits.
- Instruments.SourceArgumentsVerbatim: the six-decimal format of the voltage is modelled
  only for the integer voltages the sweep applies.
- Sweep.RepsCount, Sweep.PointCount, Sweep.PointsCount and Sweep.SweepCount count
  timestamps and files only. The replies consumed and the triggers are stated per
  burst, in Sweep.SweepBurstCounts.
- Sweep.SweepBurst takes the normalisation as a parameter with the property
  `Normalization.KeepsLength`. The sweep itself uses `Normalization.Normalized(float)`.
