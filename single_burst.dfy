/** The two single-burst scripts. The plain one (counter.py) acquires one burst, writes
    the raw and the relative records, and only then resets and closes the counter. The
    detrended one (counter2.py) resets and closes the counter right after the burst,
    then writes the raw, the relative and the drift-compensated records. Each script
    is a method on the bench, proved to leave exactly the events of a specification
    function of the reply stream and the clock; an exception (a reply that is not a
    number, a zero mean) ends the script where Python raises it. */
module SingleBurst {
  import opened Basics
  import opened Normalization
  import opened Drift
  import opened Records
  import opened Instruments
  import opened Protocol

  /** How a script ends: normally, or with the exception that stopped it. */
  datatype Outcome = Done | Aborted(failure: Failure)

  /** The effects of a script, in order, and how it ended. */
  datatype Run = Run(events: seq<Event>, outcome: Outcome)

  /** str() of a float, the text of a relative value in a record; left abstract. */
  type Render = real -> string

  function Rendered(show: Render, y: seq<real>): seq<string>
  {
    seq(|y|, i requires 0 <= i < |y| => show(y[i]))
  }

  /** What counter.py does before its normalisation: the burst without its reset, then
      the raw record of the replies read. */
  function PlainAcquired(cfg: Config, replies: nat -> string, start: nat, ts: string): seq<Event>
  {
    SetupEvents(cfg.gate, replies(start)) + AcquireEvents(replies, start + 1, cfg.samples)
      + [Save(ts, ts, Absolute, cfg.observation, Samples(replies, start + 1, cfg.samples))]
  }

  /** counter.py, once the result of its normalisation is known: the burst without its
      reset, the raw record, then (unless the normalisation raised) the relative
      record, the reset and the close. The counter's answers are consumed from
      `start`; `ts` is the timestamp. */
  function PlainScript(cfg: Config, replies: nat -> string, start: nat, ts: string,
                       relative: Result<seq<real>, Failure>, show: Render): Run
  {
    var acquired := PlainAcquired(cfg, replies, start, ts);
    match relative
    case Err(e) => Run(acquired, Aborted(e))
    case Ok(y) =>
      Run(acquired + [Save(ts, ts, Relative, cfg.observation, Rendered(show, y))] + (ResetEvents() + [Close]), Done)
  }

  /** counter.py from the reply stream and the clock, whose next reading is `tick`. */
  function PlainRun(cfg: Config, replies: nat -> string, clock: nat -> string, start: nat, tick: nat,
                    float: Conversion, show: Render): Run
  {
    PlainScript(cfg, replies, start, clock(tick), Normalize(float, Samples(replies, start + 1, cfg.samples)), show)
  }

  /** What counter2.py does before its normalisation: the whole burst, the close of the
      counter, then the raw record. */
  function DetrendedMeasured(cfg: Config, replies: nat -> string, start: nat, ts: string): seq<Event>
  {
    BurstEvents(cfg.gate, replies, start, cfg.samples) + [Close]
      + [Save(ts, ts, Absolute, cfg.observation, Samples(replies, start + 1, cfg.samples))]
  }

  /** counter2.py, once the result of its normalisation is known: the whole burst and
      the close, the raw record, then (unless the normalisation raised) the relative
      and the drift-compensated records. */
  function DetrendedScript(cfg: Config, replies: nat -> string, start: nat, ts: string,
                           relative: Result<seq<real>, Failure>, show: Render): Run
    requires relative.Ok? ==> |relative.value| >= 1
  {
    var measured := DetrendedMeasured(cfg, replies, start, ts);
    match relative
    case Err(e) => Run(measured, Aborted(e))
    case Ok(y) =>
      Run(measured + [Save(ts, ts, Relative, cfg.observation, Rendered(show, y))]
        + [Save(ts, ts, Detrended, cfg.observation, Rendered(show, RemoveDrift(y)))], Done)
  }

  /** counter2.py from the reply stream and the clock. */
  function DetrendedRun(cfg: Config, replies: nat -> string, clock: nat -> string, start: nat, tick: nat,
                        float: Conversion, show: Render): Run
  {
    DetrendedScript(cfg, replies, start, clock(tick), Normalize(float, Samples(replies, start + 1, cfg.samples)), show)
  }

  method MeasurePlain(b: Bench, cfg: Config, float: Conversion, show: Render) returns (outcome: Outcome)
    modifies b
    ensures var run := PlainRun(cfg, b.replies, b.clock, old(b.served), old(b.ticks), float, show);
      b.trace == old(b.trace) + run.events && outcome == run.outcome
  {
    ghost var t0 := b.trace;
    var f0 := Configure(b, cfg.gate);
    assert f0 == b.replies(old(b.served));
    var x := Acquire(b, cfg.samples);
    assert x == Samples(b.replies, old(b.served) + 1, cfg.samples);
    ghost var burst := SetupEvents(cfg.gate, f0) + AcquireEvents(b.replies, old(b.served) + 1, cfg.samples);
    Extend(t0, SetupEvents(cfg.gate, f0), AcquireEvents(b.replies, old(b.served) + 1, cfg.samples));
    assert b.trace == t0 + burst;
    var ts := b.Now();
    assert ts == b.clock(old(b.ticks));
    b.Save(ts, ts, Absolute, cfg.observation, x);
    ghost var acquired := burst + [Save(ts, ts, Absolute, cfg.observation, x)];
    Extend(t0, burst, [Save(ts, ts, Absolute, cfg.observation, x)]);
    assert acquired == PlainAcquired(cfg, b.replies, old(b.served), ts);
    assert b.trace == t0 + acquired;
    var normalized := Normalize(float, x);
    if normalized.Err? {
      return Aborted(normalized.error);
    }
    var relative := Save(ts, ts, Relative, cfg.observation, Rendered(show, normalized.value));
    b.Save(ts, ts, Relative, cfg.observation, Rendered(show, normalized.value));
    Reset(b);
    b.Close();
    Extend(t0, acquired, [relative]);
    Extend(t0 + (acquired + [relative]), ResetEvents(), [Close]);
    Extend(t0, acquired + [relative], ResetEvents() + [Close]);
    assert b.trace == t0 + (acquired + [relative] + (ResetEvents() + [Close]));
    outcome := Done;
  }

  method MeasureDetrended(b: Bench, cfg: Config, float: Conversion, show: Render) returns (outcome: Outcome)
    modifies b
    ensures var run := DetrendedRun(cfg, b.replies, b.clock, old(b.served), old(b.ticks), float, show);
      b.trace == old(b.trace) + run.events && outcome == run.outcome
  {
    ghost var t0 := b.trace;
    var x := Burst(b, cfg.gate, cfg.samples);
    b.Close();
    var ts := b.Now();
    var raw := Save(ts, ts, Absolute, cfg.observation, x);
    b.Save(ts, ts, Absolute, cfg.observation, x);
    ghost var burst := BurstEvents(cfg.gate, b.replies, old(b.served), cfg.samples);
    Extend(t0, burst, [Close]);
    Extend(t0, burst + [Close], [raw]);
    ghost var measured := burst + [Close] + [raw];
    assert measured == DetrendedMeasured(cfg, b.replies, old(b.served), ts);
    var normalized := Normalize(float, x);
    if normalized.Err? {
      return Aborted(normalized.error);
    }
    var y := normalized.value;
    var relative := Save(ts, ts, Relative, cfg.observation, Rendered(show, y));
    var detrended := Save(ts, ts, Detrended, cfg.observation, Rendered(show, RemoveDrift(y)));
    b.Save(ts, ts, Relative, cfg.observation, Rendered(show, y));
    b.Save(ts, ts, Detrended, cfg.observation, Rendered(show, RemoveDrift(y)));
    Extend(t0, measured, [relative]);
    Extend(t0, measured + [relative], [detrended]);
    outcome := Done;
  }

  /** Both scripts end the same way on the same burst: normally exactly when the burst
      is non-empty, every reply is a number and their mean is not zero; an empty burst
      stops in the mean. */
  lemma {:induction false} BurstOutcome(cfg: Config, replies: nat -> string, clock: nat -> string, start: nat, tick: nat,
                                        float: Conversion, show: Render)
    requires RejectsEmpty(float)
    ensures PlainRun(cfg, replies, clock, start, tick, float, show).outcome == DetrendedRun(cfg, replies, clock, start, tick, float, show).outcome
    ensures var x := Samples(replies, start + 1, cfg.samples);
      PlainRun(cfg, replies, clock, start, tick, float, show).outcome == Done <==>
        cfg.samples > 0 && AllNumeric(float, x) && NumericMean(float, x) != 0.0
    ensures cfg.samples == 0 ==> PlainRun(cfg, replies, clock, start, tick, float, show).outcome == Aborted(StatisticsError)
  {
    NormalizeSpec(float, Samples(replies, start + 1, cfg.samples));
  }

  /** An empty reply anywhere in the burst stops both scripts, although the mean alone
      would have counted it as 0. */
  lemma {:induction false} EmptyReplyStops(cfg: Config, replies: nat -> string, clock: nat -> string, start: nat, tick: nat,
                                           float: Conversion, show: Render, k: nat)
    requires RejectsEmpty(float)
    requires k < cfg.samples && replies(start + 1 + k) == ""
    ensures PlainRun(cfg, replies, clock, start, tick, float, show).outcome.Aborted?
    ensures DetrendedRun(cfg, replies, clock, start, tick, float, show).outcome.Aborted?
  {
    var x := Samples(replies, start + 1, cfg.samples);
    assert x[k] == "";
    EmptyReplyAborts(float, x, k);
  }

  /** What counter.py does up to its first record, however it ends: the setup, exactly
      `samples` trigger/read pairs, then the raw record. */
  lemma {:induction false} AcquiredShape(cfg: Config, replies: nat -> string, start: nat, ts: string)
    ensures var e, n := PlainAcquired(cfg, replies, start, ts), cfg.samples;
      && |e| == 23 + 2 * n
      && e[..22 + 2 * n] == SetupEvents(cfg.gate, replies(start)) + AcquireEvents(replies, start + 1, n)
      && e[22 + 2 * n] == Save(ts, ts, Absolute, cfg.observation, Samples(replies, start + 1, n))
  {
    var n := cfg.samples;
    var s, a := SetupEvents(cfg.gate, replies(start)), AcquireEvents(replies, start + 1, n);
    var raw := Save(ts, ts, Absolute, cfg.observation, Samples(replies, start + 1, n));
    SetupShape(cfg.gate, replies(start));
    AcquireShape(replies, start + 1, n);
    PrefixKept(s + a, [raw], 22 + 2 * n);
    assert (s + a)[..22 + 2 * n] == s + a;
  }

  /** Up to its first record, counter.py reads every reply of the burst, in read order,
      triggers once per reply, writes only the raw record and does not close the
      counter. */
  lemma {:induction false} AcquiredObserved(cfg: Config, replies: nat -> string, start: nat, ts: string)
    ensures var e, n := PlainAcquired(cfg, replies, start, ts), cfg.samples;
      && ReadsOf(e) == Samples(replies, start + 1, n)
      && Triggers(e) == n
      && SavedNames(e) == [FileName(ts, Absolute)]
      && Close !in e
  {
    var n := cfg.samples;
    var s, a := SetupEvents(cfg.gate, replies(start)), AcquireEvents(replies, start + 1, n);
    var raw := Save(ts, ts, Absolute, cfg.observation, Samples(replies, start + 1, n));
    SetupShape(cfg.gate, replies(start));
    SetupObserved(cfg.gate, replies(start));
    AcquireObserved(replies, start + 1, n);
    SingleObserved(raw);
    QuietBefore(s, a);
    QuietAfter(s + a, [raw]);
    assert Close !in s;
    assert Close !in a;
    assert Close !in s + a;
  }

  /** counter.py's events, however it ends, begin with the setup, the `samples`
      trigger/read pairs and the raw record. */
  lemma {:induction false} PlainAcquires(cfg: Config, replies: nat -> string, start: nat, ts: string,
                                         relative: Result<seq<real>, Failure>, show: Render)
    ensures var e, n := PlainScript(cfg, replies, start, ts, relative, show).events, cfg.samples;
      && |e| >= 23 + 2 * n
      && e[..22 + 2 * n] == SetupEvents(cfg.gate, replies(start)) + AcquireEvents(replies, start + 1, n)
      && e[22 + 2 * n] == Save(ts, ts, Absolute, cfg.observation, Samples(replies, start + 1, n))
  {
    var n := cfg.samples;
    var e := PlainScript(cfg, replies, start, ts, relative, show).events;
    var acquired := PlainAcquired(cfg, replies, start, ts);
    AcquiredShape(cfg, replies, start, ts);
    if relative.Ok? {
      var rel := Save(ts, ts, Relative, cfg.observation, Rendered(show, relative.value));
      ResetTail();
      assert e == acquired + [rel] + (ResetEvents() + [Close]);
      RecordThenQuiet(acquired, rel, ResetEvents() + [Close]);
      assert e[..23 + 2 * n] == acquired;
      PrefixOfPrefix(e, 22 + 2 * n, 23 + 2 * n);
      assert e[22 + 2 * n] == e[..23 + 2 * n][22 + 2 * n];
    } else {
      assert e == acquired;
    }
  }

  /** However counter.py ends, it has read every reply of the burst, in read order, and
      triggered once per reply. */
  lemma {:induction false} PlainObserved(cfg: Config, replies: nat -> string, start: nat, ts: string,
                                         relative: Result<seq<real>, Failure>, show: Render)
    ensures var e := PlainScript(cfg, replies, start, ts, relative, show).events;
      ReadsOf(e) == Samples(replies, start + 1, cfg.samples) && Triggers(e) == cfg.samples
  {
    var e := PlainScript(cfg, replies, start, ts, relative, show).events;
    var acquired := PlainAcquired(cfg, replies, start, ts);
    AcquiredObserved(cfg, replies, start, ts);
    if relative.Ok? {
      var rel := Save(ts, ts, Relative, cfg.observation, Rendered(show, relative.value));
      ResetTail();
      assert e == acquired + [rel] + (ResetEvents() + [Close]);
      RecordThenQuiet(acquired, rel, ResetEvents() + [Close]);
    } else {
      assert e == acquired;
    }
  }

  /** After a normal end, counter.py has written its two records, and only then resets
      and closes the counter; there is no drift-compensated record. */
  lemma {:induction false} PlainOrder(cfg: Config, replies: nat -> string, start: nat, ts: string,
                                      relative: Result<seq<real>, Failure>, show: Render)
    requires relative.Ok?
    ensures var e, n := PlainScript(cfg, replies, start, ts, relative, show).events, cfg.samples;
      && |e| == 28 + 2 * n
      && SavedNames(e) == [FileName(ts, Absolute), FileName(ts, Relative)]
      && SavedNames(e[..24 + 2 * n]) == SavedNames(e)
      && e[24 + 2 * n..] == [Write(Counter, Rst), Write(Counter, Cls), Write(Counter, ContinuousOn), Close]
  {
    var e := PlainScript(cfg, replies, start, ts, relative, show).events;
    var acquired := PlainAcquired(cfg, replies, start, ts);
    var rel := Save(ts, ts, Relative, cfg.observation, Rendered(show, relative.value));
    AcquiredShape(cfg, replies, start, ts);
    AcquiredObserved(cfg, replies, start, ts);
    ResetTail();
    assert e == acquired + [rel] + (ResetEvents() + [Close]);
    RecordThenQuiet(acquired, rel, ResetEvents() + [Close]);
    var n := cfg.samples;
    SingleObserved(rel);
    QuietAfter(acquired, [rel]);
    ListOfThree(FileName(ts, Absolute), FileName(ts, Relative), "");
    assert SavedNames(e) == [FileName(ts, Absolute), FileName(ts, Relative)];
    assert e[..24 + 2 * n] == acquired + [rel];
    assert e[24 + 2 * n..] == ResetEvents() + [Close];
  }

  /** An exception in the normalisation stops counter.py right after its raw record:
      the counter is left neither reset nor closed. */
  lemma {:induction false} PlainAbort(cfg: Config, replies: nat -> string, start: nat, ts: string,
                                      relative: Result<seq<real>, Failure>, show: Render)
    requires relative.Err?
    ensures var e, n := PlainScript(cfg, replies, start, ts, relative, show).events, cfg.samples;
      && |e| == 23 + 2 * n
      && SavedNames(e) == [FileName(ts, Absolute)]
      && Close !in e
  {
    AcquiredShape(cfg, replies, start, ts);
    AcquiredObserved(cfg, replies, start, ts);
  }

  /** counter2.py up to its first record: the whole burst, including its reset, then
      the close of the counter, then the raw record. */
  lemma {:induction false} MeasuredShape(cfg: Config, replies: nat -> string, start: nat, ts: string)
    ensures var e, n := DetrendedMeasured(cfg, replies, start, ts), cfg.samples;
      && |e| == 27 + 2 * n
      && e[..26 + 2 * n] == BurstEvents(cfg.gate, replies, start, n) + [Close]
      && e[..25 + 2 * n] == BurstEvents(cfg.gate, replies, start, n)
      && e[25 + 2 * n] == Close
      && e[26 + 2 * n] == Save(ts, ts, Absolute, cfg.observation, Samples(replies, start + 1, n))
  {
    var n := cfg.samples;
    var burst := BurstEvents(cfg.gate, replies, start, n);
    BurstOrder(cfg.gate, replies, start, n);
    AppendTwo(burst, Close, Save(ts, ts, Absolute, cfg.observation, Samples(replies, start + 1, n)));
    PrefixKept(burst + [Close], [Save(ts, ts, Absolute, cfg.observation, Samples(replies, start + 1, n))], 26 + 2 * n);
    assert (burst + [Close])[..26 + 2 * n] == burst + [Close];
  }

  /** Up to its first record, counter2.py reads every reply of the burst, in read order,
      triggers once per reply, and writes the raw record only after the close. */
  lemma {:induction false} MeasuredObserved(cfg: Config, replies: nat -> string, start: nat, ts: string)
    ensures var e, n := DetrendedMeasured(cfg, replies, start, ts), cfg.samples;
      && ReadsOf(e) == Samples(replies, start + 1, n)
      && Triggers(e) == n
      && SavedNames(e) == [FileName(ts, Absolute)]
      && SavedNames(BurstEvents(cfg.gate, replies, start, n) + [Close]) == []
  {
    var n := cfg.samples;
    var burst := BurstEvents(cfg.gate, replies, start, n);
    var raw := Save(ts, ts, Absolute, cfg.observation, Samples(replies, start + 1, n));
    BurstObserved(cfg.gate, replies, start, n);
    SingleObserved(Close);
    SingleObserved(raw);
    QuietAfter(burst, [Close]);
    QuietAfter(burst + [Close], [raw]);
  }

  /** After a normal end, counter2.py has reset and closed the counter before writing
      any file, and then writes its three records: raw, relative, and with the drift
      removed, in that order. */
  lemma {:induction false} DetrendedOrder(cfg: Config, replies: nat -> string, start: nat, ts: string,
                                          relative: Result<seq<real>, Failure>, show: Render)
    requires relative.Ok? && |relative.value| >= 1
    ensures var e, n := DetrendedScript(cfg, replies, start, ts, relative, show).events, cfg.samples;
      && |e| == 29 + 2 * n
      && e[..26 + 2 * n] == BurstEvents(cfg.gate, replies, start, n) + [Close]
      && e[..25 + 2 * n] == BurstEvents(cfg.gate, replies, start, n)
      && e[25 + 2 * n] == Close
      && e[26 + 2 * n] == Save(ts, ts, Absolute, cfg.observation, Samples(replies, start + 1, n))
      && e[27 + 2 * n] == Save(ts, ts, Relative, cfg.observation, Rendered(show, relative.value))
      && e[28 + 2 * n] == Save(ts, ts, Detrended, cfg.observation, Rendered(show, RemoveDrift(relative.value)))
  {
    var n := cfg.samples;
    var y := relative.value;
    var measured := DetrendedMeasured(cfg, replies, start, ts);
    var rel := Save(ts, ts, Relative, cfg.observation, Rendered(show, y));
    var det := Save(ts, ts, Detrended, cfg.observation, Rendered(show, RemoveDrift(y)));
    var e := measured + [rel] + [det];
    assert DetrendedScript(cfg, replies, start, ts, relative, show).events == e;
    MeasuredShape(cfg, replies, start, ts);
    AppendTwo(measured, rel, det);
    PrefixOfPrefix(e, 26 + 2 * n, 27 + 2 * n);
    PrefixOfPrefix(e, 25 + 2 * n, 27 + 2 * n);
    assert e[25 + 2 * n] == e[..27 + 2 * n][25 + 2 * n];
    assert e[26 + 2 * n] == e[..27 + 2 * n][26 + 2 * n];
  }

  /** After a normal end, counter2.py has read every reply of the burst, in read order,
      triggered once per reply, and written exactly its three records. */
  lemma {:induction false} DetrendedObserved(cfg: Config, replies: nat -> string, start: nat, ts: string,
                                             relative: Result<seq<real>, Failure>, show: Render)
    requires relative.Ok? && |relative.value| >= 1
    ensures var e, n := DetrendedScript(cfg, replies, start, ts, relative, show).events, cfg.samples;
      && SavedNames(e) == [FileName(ts, Absolute), FileName(ts, Relative), FileName(ts, Detrended)]
      && ReadsOf(e) == Samples(replies, start + 1, n)
      && Triggers(e) == n
  {
    var y := relative.value;
    var measured := DetrendedMeasured(cfg, replies, start, ts);
    var rel := Save(ts, ts, Relative, cfg.observation, Rendered(show, y));
    var det := Save(ts, ts, Detrended, cfg.observation, Rendered(show, RemoveDrift(y)));
    assert DetrendedScript(cfg, replies, start, ts, relative, show).events == measured + [rel] + [det];
    MeasuredObserved(cfg, replies, start, ts);
    TwoRecordsAfter(measured, rel, det);
  }

  /** counter2.py writes no file before it has closed the counter. */
  lemma {:induction false} DetrendedClosesFirst(cfg: Config, replies: nat -> string, start: nat, ts: string,
                                                relative: Result<seq<real>, Failure>, show: Render)
    requires relative.Ok? ==> |relative.value| >= 1
    ensures var e, n := DetrendedScript(cfg, replies, start, ts, relative, show).events, cfg.samples;
      && |e| >= 26 + 2 * n
      && e[25 + 2 * n] == Close
      && SavedNames(e[..26 + 2 * n]) == []
  {
    var n := cfg.samples;
    var e := DetrendedScript(cfg, replies, start, ts, relative, show).events;
    var measured := DetrendedMeasured(cfg, replies, start, ts);
    MeasuredShape(cfg, replies, start, ts);
    MeasuredObserved(cfg, replies, start, ts);
    if relative.Ok? {
      DetrendedOrder(cfg, replies, start, ts, relative, show);
    } else {
      assert e == measured;
    }
  }

  /** An exception in the normalisation stops counter2.py right after its raw record;
      by then the counter has been reset and closed. */
  lemma {:induction false} DetrendedAbort(cfg: Config, replies: nat -> string, start: nat, ts: string,
                                          relative: Result<seq<real>, Failure>, show: Render)
    requires relative.Err?
    ensures var e, n := DetrendedScript(cfg, replies, start, ts, relative, show).events, cfg.samples;
      && |e| == 27 + 2 * n
      && e[22 + 2 * n..25 + 2 * n] == [Write(Counter, Rst), Write(Counter, Cls), Write(Counter, ContinuousOn)]
      && e[25 + 2 * n] == Close
      && SavedNames(e) == [FileName(ts, Absolute)]
  {
    var n := cfg.samples;
    MeasuredShape(cfg, replies, start, ts);
    MeasuredObserved(cfg, replies, start, ts);
    BurstOrder(cfg.gate, replies, start, n);
    var e := DetrendedMeasured(cfg, replies, start, ts);
    assert e[22 + 2 * n..25 + 2 * n] == BurstEvents(cfg.gate, replies, start, n)[22 + 2 * n..];
  }

  /** What counter2.py's two relative records hold after a normal end: the relative
      record the normalised burst, whose values sum to zero, and the third record the
      same values with the drift line removed, whose residuals have zero sum and zero
      first moment (the least-squares normal equations). */
  lemma {:induction false} DetrendedRecords(cfg: Config, replies: nat -> string, clock: nat -> string, start: nat,
                                            tick: nat, float: Conversion, show: Render)
    requires RejectsEmpty(float)
    requires DetrendedRun(cfg, replies, clock, start, tick, float, show).outcome == Done
    ensures var e, n := DetrendedRun(cfg, replies, clock, start, tick, float, show).events, cfg.samples;
      var y := Normalize(float, Samples(replies, start + 1, n)).value;
      && |e| == 29 + 2 * n
      && e[27 + 2 * n].rows == Rendered(show, y)
      && e[28 + 2 * n].rows == Rendered(show, RemoveDrift(y))
      && |y| == n && Sum(y) == 0.0
      && |RemoveDrift(y)| == n && Sum(RemoveDrift(y)) == 0.0 && Moment(RemoveDrift(y)) == 0.0
  {
    var x := Samples(replies, start + 1, cfg.samples);
    var relative := Normalize(float, x);
    DetrendedOrder(cfg, replies, start, clock(tick), relative, show);
    NormalizedSumIsZero(float, x);
  }

  /** The close of counter.py: the three reset commands, then the close; no read, no
      trigger, no file. */
  lemma {:induction false} ResetTail()
    ensures ResetEvents() + [Close] == [Write(Counter, Rst), Write(Counter, Cls), Write(Counter, ContinuousOn), Close]
    ensures |ResetEvents() + [Close]| == 4
    ensures ReadsOf(ResetEvents() + [Close]) == [] && Triggers(ResetEvents() + [Close]) == 0
    ensures SavedNames(ResetEvents() + [Close]) == []
  {
    SingleObserved(Close);
    WritesObserved(Counter, ResetCommands);
    QuietBefore(ResetEvents(), [Close]);
    WritesOfThree(Counter, Rst, Cls, ContinuousOn);
    ThreeThenOne(Write(Counter, Rst), Write(Counter, Cls), Write(Counter, ContinuousOn), Close);
  }
}
