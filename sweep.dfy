/** The voltage and frequency sweep (counter4.py). For every applied voltage and, under
    it, every applied frequency, until the rule "zero volts, positive frequency" breaks
    the inner loop: the calibrator is set to the point and left to settle for `wait`
    seconds, then `rep` bursts are measured, each one after a one-minute pause, each
    leaving three record files named after its timestamp and the point. An exception in
    a burst's normalisation ends the whole sweep. The counter is reset after every burst
    but never closed. Standby is set only at the start of each point, so after the last
    point the calibrator is left operating. */
module Sweep {
  import opened Basics
  import opened Text
  import opened Normalization
  import opened Drift
  import opened Records
  import opened Instruments
  import opened Protocol
  import opened SingleBurst

  /** The applied voltages, in volts, and the applied frequencies, in hertz. */
  const Voltages: seq<int> := [0, 1, 2]
  const Frequencies: seq<int> := [0, 1000]

  /** The one-minute pause before each burst. */
  const Pause: nat := 60

  datatype Point = Point(volts: int, hertz: int)

  /** The effects so far, how they ended, and the cursors into the reply stream and the
      clock for whatever comes next. */
  datatype Progress = Progress(events: seq<Event>, outcome: Outcome, served: nat, ticks: nat)

  /** `p`, then `q` run from where `p` left the cursors. */
  function Then(p: Progress, q: Progress): Progress
  {
    Progress(p.events + q.events, q.outcome, q.served, q.ticks)
  }

  /** Where the inner loop stops for voltage `v`: at the first frequency that meets the
      break condition, or after the last one. */
  function BreakIndex(v: int, fs: seq<int>): (k: nat)
    ensures k <= |fs|
    ensures forall j :: 0 <= j < k ==> !(v == 0 && fs[j] > 0)
    ensures k < |fs| ==> v == 0 && fs[k] > 0
  {
    if |fs| == 0 || (v == 0 && fs[0] > 0) then 0 else 1 + BreakIndex(v, fs[1..])
  }

  /** The points the inner loop visits for voltage `v`, in order. */
  function KeptRow(v: int, fs: seq<int>): seq<Point>
  {
    seq(BreakIndex(v, fs), j requires 0 <= j < BreakIndex(v, fs) => Point(v, fs[j]))
  }

  /** The points the nested loops visit, in order. */
  function Kept(vs: seq<int>, fs: seq<int>): seq<Point>
  {
    if |vs| == 0 then [] else Kept(vs[..|vs| - 1], fs) + KeptRow(vs[|vs| - 1], fs)
  }

  /** The calibrator's part of a point: standby, the output, clear, operate, then the
      settling time. */
  function SourceEvents(v: int, f: int, wait: nat): seq<Event>
  {
    [Write(Source, Standby), Write(Source, OutputVoltage(v)), Write(Source, OutputFrequency(f)),
     Write(Source, Cls), Write(Source, Operate), Sleep(wait)]
  }

  /** A burst of the sweep before its normalisation, from the cursors `served` and
      `ticks`: the pause, the whole burst with its reset, then the raw record, named
      after the timestamp and the point. */
  function SweepMeasured(cfg: Config, replies: nat -> string, clock: nat -> string, v: int, f: int,
                         served: nat, ticks: nat): seq<Event>
  {
    [Sleep(Pause)] + BurstEvents(cfg.gate, replies, served, cfg.samples)
      + [Save(SweepStem(clock(ticks), v, f), clock(ticks), Absolute, cfg.observation, Samples(replies, served + 1, cfg.samples))]
  }

  /** One burst of the sweep: what it measures, then (unless the normalisation raised)
      the relative and the drift-compensated records. */
  function SweepBurst(cfg: Config, replies: nat -> string, clock: nat -> string, v: int, f: int,
                      served: nat, ticks: nat, normalize: Normalizer, show: Render): Progress
    requires KeepsLength(normalize)
  {
    var ts := clock(ticks);
    var measured := SweepMeasured(cfg, replies, clock, v, f, served, ticks);
    match normalize(Samples(replies, served + 1, cfg.samples))
    case Err(e) => Progress(measured, Aborted(e), served + 1 + cfg.samples, ticks + 1)
    case Ok(y) =>
      assert KeepsLengthAt(normalize, Samples(replies, served + 1, cfg.samples));
      Progress(measured + [Save(SweepStem(ts, v, f), ts, Relative, cfg.observation, Rendered(show, y))]
        + [Save(SweepStem(ts, v, f), ts, Detrended, cfg.observation, Rendered(show, RemoveDrift(y)))],
        Done, served + 1 + cfg.samples, ticks + 1)
  }

  /** The first `k` repetitions at one point, stopping at the first exception. */
  function Reps(cfg: Config, replies: nat -> string, clock: nat -> string, v: int, f: int,
                served: nat, ticks: nat, k: nat, normalize: Normalizer, show: Render): Progress
    requires KeepsLength(normalize)
  {
    if k == 0 then Progress([], Done, served, ticks)
    else
      var p := Reps(cfg, replies, clock, v, f, served, ticks, k - 1, normalize, show);
      if p.outcome.Aborted? then p
      else Then(p, SweepBurst(cfg, replies, clock, v, f, p.served, p.ticks, normalize, show))
  }

  /** One point of the sweep: the calibrator's part, then `rep` bursts. */
  function PointStep(cfg: Config, replies: nat -> string, clock: nat -> string, pt: Point,
                     served: nat, ticks: nat, normalize: Normalizer, show: Render): Progress
    requires KeepsLength(normalize)
  {
    Then(Progress(SourceEvents(pt.volts, pt.hertz, cfg.wait), Done, served, ticks),
      Reps(cfg, replies, clock, pt.volts, pt.hertz, served, ticks, cfg.rep, normalize, show))
  }

  /** The points `ps` one after the other, stopping at the first exception. */
  function Points(cfg: Config, replies: nat -> string, clock: nat -> string, ps: seq<Point>,
                  served: nat, ticks: nat, normalize: Normalizer, show: Render): Progress
    requires KeepsLength(normalize)
  {
    if |ps| == 0 then Progress([], Done, served, ticks)
    else
      var p := Points(cfg, replies, clock, ps[..|ps| - 1], served, ticks, normalize, show);
      if p.outcome.Aborted? then p
      else Then(p, PointStep(cfg, replies, clock, ps[|ps| - 1], p.served, p.ticks, normalize, show))
  }

  /** counter4.py from the reply stream and the clock. */
  function SweepRun(cfg: Config, replies: nat -> string, clock: nat -> string, served: nat, ticks: nat,
                    float: Conversion, show: Render): Progress
  {
    NormalizedKeepsLength(float);
    Points(cfg, replies, clock, Kept(Voltages, Frequencies), served, ticks, Normalized(float), show)
  }

  /** One repetition of counter4.py's inner loop body. */
  method MeasureAt(b: Bench, cfg: Config, v: int, f: int, float: Conversion, show: Render) returns (outcome: Outcome)
    modifies b
    ensures var p := SweepBurst(cfg, b.replies, b.clock, v, f, old(b.served), old(b.ticks), Normalized(float), show);
      b.trace == old(b.trace) + p.events && outcome == p.outcome && b.served == p.served && b.ticks == p.ticks
  {
    ghost var t0 := b.trace;
    b.Sleep(Pause);
    var x := Burst(b, cfg.gate, cfg.samples);
    assert x == Samples(b.replies, old(b.served) + 1, cfg.samples);
    var ts := b.Now();
    assert ts == b.clock(old(b.ticks));
    var stem := SweepStem(ts, v, f);
    var raw := Save(stem, ts, Absolute, cfg.observation, x);
    b.Save(stem, ts, Absolute, cfg.observation, x);
    ghost var burst := BurstEvents(cfg.gate, b.replies, old(b.served), cfg.samples);
    Extend(t0, [Sleep(Pause)], burst);
    Extend(t0, [Sleep(Pause)] + burst, [raw]);
    ghost var measured := [Sleep(Pause)] + burst + [raw];
    assert measured == SweepMeasured(cfg, b.replies, b.clock, v, f, old(b.served), old(b.ticks));
    assert b.trace == t0 + measured;
    var normalized := Normalize(float, x);
    if normalized.Err? {
      return Aborted(normalized.error);
    }
    var y := normalized.value;
    var relative := Save(stem, ts, Relative, cfg.observation, Rendered(show, y));
    var detrended := Save(stem, ts, Detrended, cfg.observation, Rendered(show, RemoveDrift(y)));
    b.Save(stem, ts, Relative, cfg.observation, Rendered(show, y));
    b.Save(stem, ts, Detrended, cfg.observation, Rendered(show, RemoveDrift(y)));
    Extend(t0, measured, [relative]);
    Extend(t0, measured + [relative], [detrended]);
    outcome := Done;
  }

  /** counter4.py at one point: the calibrator, the settling time, then the loop of
      repetitions, left at the first exception. */
  method MeasurePoint(b: Bench, cfg: Config, v: int, f: int, float: Conversion, show: Render) returns (outcome: Outcome)
    modifies b
    ensures var p := PointStep(cfg, b.replies, b.clock, Point(v, f), old(b.served), old(b.ticks), Normalized(float), show);
      b.trace == old(b.trace) + p.events && outcome == p.outcome && b.served == p.served && b.ticks == p.ticks
  {
    ghost var t0 := b.trace;
    b.Write(Source, Standby);
    b.Write(Source, OutputVoltage(v));
    b.Write(Source, OutputFrequency(f));
    b.Write(Source, Cls);
    b.Write(Source, Operate);
    b.Sleep(cfg.wait);
    ghost var t1 := b.trace;
    assert t1 == t0 + SourceEvents(v, f, cfg.wait);
    var k := 0;
    while k < cfg.rep
      invariant 0 <= k <= cfg.rep
      invariant var p := Reps(cfg, b.replies, b.clock, v, f, old(b.served), old(b.ticks), k, Normalized(float), show);
        p.outcome == Done && b.trace == t1 + p.events && b.served == p.served && b.ticks == p.ticks
    {
      ghost var p := Reps(cfg, b.replies, b.clock, v, f, old(b.served), old(b.ticks), k, Normalized(float), show);
      var o := MeasureAt(b, cfg, v, f, float, show);
      ghost var q := SweepBurst(cfg, b.replies, b.clock, v, f, p.served, p.ticks, Normalized(float), show);
      Extend(t1, p.events, q.events);
      assert Reps(cfg, b.replies, b.clock, v, f, old(b.served), old(b.ticks), k + 1, Normalized(float), show) == Then(p, q);
      if o.Aborted? {
        RepsAbortPersists(cfg, b.replies, b.clock, v, f, old(b.served), old(b.ticks), k + 1, cfg.rep, Normalized(float), show);
        Extend(t0, SourceEvents(v, f, cfg.wait), Then(p, q).events);
        return o;
      }
      k := k + 1;
    }
    ghost var reps := Reps(cfg, b.replies, b.clock, v, f, old(b.served), old(b.ticks), cfg.rep, Normalized(float), show);
    Extend(t0, SourceEvents(v, f, cfg.wait), reps.events);
    outcome := Done;
  }

  /** counter4.py: the loop over the voltages, each running the loop over the
      frequencies, left at the first exception. */
  method RunSweep(b: Bench, cfg: Config, float: Conversion, show: Render) returns (outcome: Outcome)
    modifies b
    ensures var p := SweepRun(cfg, b.replies, b.clock, old(b.served), old(b.ticks), float, show);
      b.trace == old(b.trace) + p.events && outcome == p.outcome && b.served == p.served && b.ticks == p.ticks
  {
    ghost var t0 := b.trace;
    var i := 0;
    while i < |Voltages|
      invariant 0 <= i <= |Voltages|
      invariant var p := Points(cfg, b.replies, b.clock, Kept(Voltages[..i], Frequencies), old(b.served), old(b.ticks), Normalized(float), show);
        p.outcome == Done && b.trace == t0 + p.events && b.served == p.served && b.ticks == p.ticks
    {
      ghost var done := Kept(Voltages[..i], Frequencies);
      var o := MeasureRow(b, cfg, Voltages[i], float, show, t0, old(b.served), old(b.ticks), done);
      KeptSnoc(Voltages, Frequencies, i);
      if o.Aborted? {
        KeptGrows(Voltages, Frequencies, i + 1);
        PointsAbortPersists(cfg, b.replies, b.clock, Kept(Voltages[..i + 1], Frequencies), Kept(Voltages, Frequencies),
          old(b.served), old(b.ticks), Normalized(float), show);
        return o;
      }
      i := i + 1;
    }
    assert Voltages[..i] == Voltages;
    outcome := Done;
  }

  /** counter4.py's loop over the frequencies at voltage `v`, with its break, after the
      points `done` of the sweep that began at trace `t0` and cursors `served`, `ticks`. */
  method MeasureRow(b: Bench, cfg: Config, v: int, float: Conversion, show: Render,
                    ghost t0: seq<Event>, ghost served: nat, ghost ticks: nat, ghost done: seq<Point>)
    returns (outcome: Outcome)
    modifies b
    requires var p := Points(cfg, b.replies, b.clock, done, served, ticks, Normalized(float), show);
      p.outcome == Done && b.trace == t0 + p.events && b.served == p.served && b.ticks == p.ticks
    ensures var p := Points(cfg, b.replies, b.clock, done + KeptRow(v, Frequencies), served, ticks, Normalized(float), show);
      b.trace == t0 + p.events && outcome == p.outcome && b.served == p.served && b.ticks == p.ticks
  {
    var j := 0;
    RowWhole(done, v, Frequencies, 0);
    while j < |Frequencies|
      invariant 0 <= j <= BreakIndex(v, Frequencies)
      invariant var p := Points(cfg, b.replies, b.clock, done + KeptRow(v, Frequencies)[..j], served, ticks, Normalized(float), show);
        p.outcome == Done && b.trace == t0 + p.events && b.served == p.served && b.ticks == p.ticks
    {
      var f := Frequencies[j];
      if v == 0 && f > 0 {
        break;
      }
      ghost var ps := done + KeptRow(v, Frequencies)[..j];
      ghost var p := Points(cfg, b.replies, b.clock, ps, served, ticks, Normalized(float), show);
      var o := MeasurePoint(b, cfg, v, f, float, show);
      ghost var q := PointStep(cfg, b.replies, b.clock, Point(v, f), p.served, p.ticks, Normalized(float), show);
      Extend(t0, p.events, q.events);
      PointsSnoc(cfg, b.replies, b.clock, ps, Point(v, f), served, ticks, Normalized(float), show);
      RowStep(done, v, Frequencies, j);
      if o.Aborted? {
        RowPrefix(done, v, Frequencies, j + 1);
        PointsAbortPersists(cfg, b.replies, b.clock, ps + [Point(v, f)], done + KeptRow(v, Frequencies),
          served, ticks, Normalized(float), show);
        return o;
      }
      j := j + 1;
    }
    RowWhole(done, v, Frequencies, j);
    outcome := Done;
  }

  /** With the sweep's voltages and frequencies, the break skips every positive
      frequency at zero volts and nothing else: five points are measured, in this order. */
  lemma {:induction false} KeptPoints()
    ensures Kept(Voltages, Frequencies) == [Point(0, 0), Point(1, 0), Point(1, 1000), Point(2, 0), Point(2, 1000)]
  {
    assert BreakIndex(0, Frequencies[1..]) == 0;
    assert BreakIndex(0, Frequencies) == 1;
    assert BreakIndex(1, Frequencies) == 2 by {
      assert Frequencies[1..][1..] == [];
    }
    assert BreakIndex(2, Frequencies) == 2 by {
      assert Frequencies[1..][1..] == [];
    }
    var v2, v1, v0 := Voltages[..2], Voltages[..1], Voltages[..0];
    assert Voltages[..3 - 1] == v2 && v2[..1] == v1 && v1[..0] == v0;
    assert Kept(v0, Frequencies) == [];
    assert Kept(v1, Frequencies) == [Point(0, 0)];
    assert Kept(v2, Frequencies) == [Point(0, 0), Point(1, 0), Point(1, 1000)];
  }

  /** At every point the calibrator first gets standby, the output voltage, the output
      frequency, clear and operate, then the settling time passes; only then do the
      repetitions, and so the counter's commands, begin. */
  lemma {:induction false} SourceFirst(cfg: Config, replies: nat -> string, clock: nat -> string, pt: Point,
                                       served: nat, ticks: nat, normalize: Normalizer, show: Render)
    requires KeepsLength(normalize)
    ensures var e := PointStep(cfg, replies, clock, pt, served, ticks, normalize, show).events;
      && |e| >= 6
      && e[..6] == [Write(Source, Standby), Write(Source, OutputVoltage(pt.volts)), Write(Source, OutputFrequency(pt.hertz)),
                    Write(Source, Cls), Write(Source, Operate), Sleep(cfg.wait)]
      && e[6..] == Reps(cfg, replies, clock, pt.volts, pt.hertz, served, ticks, cfg.rep, normalize, show).events
  {
    var src := SourceEvents(pt.volts, pt.hertz, cfg.wait);
    var reps := Reps(cfg, replies, clock, pt.volts, pt.hertz, served, ticks, cfg.rep, normalize, show);
    assert (src + reps.events)[..6] == src;
    assert (src + reps.events)[6..] == reps.events;
  }

  /** The calibrator's part of a point reads nothing, triggers nothing and writes no
      file. */
  lemma {:induction false} SourceQuiet(v: int, f: int, wait: nat)
    ensures ReadsOf(SourceEvents(v, f, wait)) == [] && Triggers(SourceEvents(v, f, wait)) == 0
    ensures SavedNames(SourceEvents(v, f, wait)) == []
  {
    var e := SourceEvents(v, f, wait);
    var n := 6;
    while n > 0
      invariant 0 <= n <= 6
      invariant ReadsOf(e[n..]) == [] && Triggers(e[n..]) == 0 && SavedNames(e[n..]) == []
    {
      n := n - 1;
      assert e[n..][1..] == e[n + 1..];
    }
  }

  /** A burst of the sweep: the one-minute pause, the whole burst with its reset, then
      the raw record, named after the timestamp and the point, holding the replies of
      this burst only, in read order. */
  lemma {:induction false} SweepBurstShape(cfg: Config, replies: nat -> string, clock: nat -> string, v: int, f: int,
                                           served: nat, ticks: nat)
    ensures var e, n := SweepMeasured(cfg, replies, clock, v, f, served, ticks), cfg.samples;
      && |e| == 27 + 2 * n
      && e[0] == Sleep(Pause)
      && e[1..26 + 2 * n] == BurstEvents(cfg.gate, replies, served, n)
      && e[26 + 2 * n] == Save(SweepStem(clock(ticks), v, f), clock(ticks), Absolute, cfg.observation, ReadsOf(e))
      && ReadsOf(e) == Samples(replies, served + 1, n)
      && Triggers(e) == n
      && SavedNames(e) == [FileName(SweepStem(clock(ticks), v, f), Absolute)]
  {
    var n := cfg.samples;
    var burst := BurstEvents(cfg.gate, replies, served, n);
    var raw := Save(SweepStem(clock(ticks), v, f), clock(ticks), Absolute, cfg.observation, Samples(replies, served + 1, n));
    BurstOrder(cfg.gate, replies, served, n);
    BurstObserved(cfg.gate, replies, served, n);
    SingleObserved(Sleep(Pause));
    SingleObserved(raw);
    QuietBefore([Sleep(Pause)], burst);
    QuietAfter([Sleep(Pause)] + burst, [raw]);
    PrefixKept([Sleep(Pause)] + burst, [raw], 26 + 2 * n);
    assert ([Sleep(Pause)] + burst)[1..26 + 2 * n] == burst;
  }

  /** How a burst of the sweep ends: normally exactly when its replies normalise, and
      otherwise right after its raw record with the normalisation's exception; either
      way it takes one timestamp and 1 + N answers of the counter. */
  lemma {:induction false} SweepBurstEnd(cfg: Config, replies: nat -> string, clock: nat -> string, v: int, f: int,
                                         served: nat, ticks: nat, normalize: Normalizer, show: Render)
    requires KeepsLength(normalize)
    ensures var q, x := SweepBurst(cfg, replies, clock, v, f, served, ticks, normalize, show), Samples(replies, served + 1, cfg.samples);
      && q.served == served + 1 + cfg.samples && q.ticks == ticks + 1
      && (q.outcome == Done <==> normalize(x).Ok?)
      && (q.outcome.Aborted? ==>
            q.events == SweepMeasured(cfg, replies, clock, v, f, served, ticks) && q.outcome.failure == normalize(x).error)
  {
  }

  /** A burst of the sweep that ends normally: after the raw record come the relative
      record of the normalised replies and the record of those values with the drift
      removed. */
  lemma {:induction false} SweepBurstDone(cfg: Config, replies: nat -> string, clock: nat -> string, v: int, f: int,
                                          served: nat, ticks: nat, normalize: Normalizer, show: Render)
    requires KeepsLength(normalize)
    requires SweepBurst(cfg, replies, clock, v, f, served, ticks, normalize, show).outcome == Done
    ensures var e, n := SweepBurst(cfg, replies, clock, v, f, served, ticks, normalize, show).events, cfg.samples;
      var stem, x := SweepStem(clock(ticks), v, f), Samples(replies, served + 1, n);
      && |e| == 29 + 2 * n
      && e[..27 + 2 * n] == SweepMeasured(cfg, replies, clock, v, f, served, ticks)
      && 1 <= n == |normalize(x).value|
      && e[27 + 2 * n] == Save(stem, clock(ticks), Relative, cfg.observation, Rendered(show, normalize(x).value))
      && e[28 + 2 * n] == Save(stem, clock(ticks), Detrended, cfg.observation, Rendered(show, RemoveDrift(normalize(x).value)))
  {
    var n := cfg.samples;
    var x := Samples(replies, served + 1, n);
    var ts := clock(ticks);
    var m := SweepMeasured(cfg, replies, clock, v, f, served, ticks);
    SweepBurstShape(cfg, replies, clock, v, f, served, ticks);
    assert KeepsLengthAt(normalize, x);
    var y := normalize(x).value;
    var rel := Save(SweepStem(ts, v, f), ts, Relative, cfg.observation, Rendered(show, y));
    var det := Save(SweepStem(ts, v, f), ts, Detrended, cfg.observation, Rendered(show, RemoveDrift(y)));
    PrefixKept(m + [rel], [det], 27 + 2 * n);
    PrefixKept(m, [rel], 27 + 2 * n);
    assert m[..27 + 2 * n] == m;
  }

  /** A burst of the sweep that ends normally reads its N replies, triggers N times and
      writes three files, all named after the timestamp and the point. */
  lemma {:induction false} SweepBurstObserved(cfg: Config, replies: nat -> string, clock: nat -> string, v: int, f: int,
                                              served: nat, ticks: nat, normalize: Normalizer, show: Render)
    requires KeepsLength(normalize)
    requires SweepBurst(cfg, replies, clock, v, f, served, ticks, normalize, show).outcome == Done
    ensures var e, stem := SweepBurst(cfg, replies, clock, v, f, served, ticks, normalize, show).events, SweepStem(clock(ticks), v, f);
      && ReadsOf(e) == Samples(replies, served + 1, cfg.samples) && Triggers(e) == cfg.samples
      && SavedNames(e) == [FileName(stem, Absolute), FileName(stem, Relative), FileName(stem, Detrended)]
  {
    var x := Samples(replies, served + 1, cfg.samples);
    var ts := clock(ticks);
    var stem := SweepStem(ts, v, f);
    var m := SweepMeasured(cfg, replies, clock, v, f, served, ticks);
    SweepBurstShape(cfg, replies, clock, v, f, served, ticks);
    assert KeepsLengthAt(normalize, x);
    var y := normalize(x).value;
    var rel := Save(stem, ts, Relative, cfg.observation, Rendered(show, y));
    var det := Save(stem, ts, Detrended, cfg.observation, Rendered(show, RemoveDrift(y)));
    assert SweepBurst(cfg, replies, clock, v, f, served, ticks, normalize, show).events == m + [rel] + [det];
    TwoRecordsAfter(m, rel, det);
    ListOfThree(FileName(stem, Absolute), FileName(stem, Relative), FileName(stem, Detrended));
  }

  /** Repetitions that all end normally: `k` bursts take `k` timestamps and write three
      files each. */
  lemma {:induction false} RepsCount(cfg: Config, replies: nat -> string, clock: nat -> string, v: int, f: int,
                                     served: nat, ticks: nat, k: nat, normalize: Normalizer, show: Render)
    requires KeepsLength(normalize)
    requires Reps(cfg, replies, clock, v, f, served, ticks, k, normalize, show).outcome == Done
    ensures var p := Reps(cfg, replies, clock, v, f, served, ticks, k, normalize, show);
      && p.ticks == ticks + k
      && |SavedNames(p.events)| == 3 * k
    decreases k
  {
    if k > 0 {
      RepsStep(cfg, replies, clock, v, f, served, ticks, k, normalize, show);
      RepsCount(cfg, replies, clock, v, f, served, ticks, k - 1, normalize, show);
    }
  }

  /** One more repetition that ends normally, after repetitions that end normally, adds
      one timestamp and three files. */
  lemma {:induction false} RepsStep(cfg: Config, replies: nat -> string, clock: nat -> string, v: int, f: int,
                                    served: nat, ticks: nat, k: nat, normalize: Normalizer, show: Render)
    requires KeepsLength(normalize)
    requires k > 0 && Reps(cfg, replies, clock, v, f, served, ticks, k, normalize, show).outcome == Done
    ensures var p, r := Reps(cfg, replies, clock, v, f, served, ticks, k - 1, normalize, show),
                        Reps(cfg, replies, clock, v, f, served, ticks, k, normalize, show);
      && p.outcome == Done
      && r.ticks == p.ticks + 1
      && |SavedNames(r.events)| == |SavedNames(p.events)| + 3
  {
    var p := Reps(cfg, replies, clock, v, f, served, ticks, k - 1, normalize, show);
    var q := SweepBurst(cfg, replies, clock, v, f, p.served, p.ticks, normalize, show);
    SweepBurstCounts(cfg, replies, clock, v, f, p.served, p.ticks, normalize, show);
    ObserversAppend(p.events, q.events);
  }

  /** What one burst of the sweep that ends normally adds to the counts. */
  lemma {:induction false} SweepBurstCounts(cfg: Config, replies: nat -> string, clock: nat -> string, v: int, f: int,
                                            served: nat, ticks: nat, normalize: Normalizer, show: Render)
    requires KeepsLength(normalize)
    ensures var q := SweepBurst(cfg, replies, clock, v, f, served, ticks, normalize, show);
      && q.served == served + 1 + cfg.samples && q.ticks == ticks + 1
      && (q.outcome == Done ==> Triggers(q.events) == cfg.samples && |SavedNames(q.events)| == 3)
  {
    SweepBurstEnd(cfg, replies, clock, v, f, served, ticks, normalize, show);
    if SweepBurst(cfg, replies, clock, v, f, served, ticks, normalize, show).outcome == Done {
      SweepBurstObserved(cfg, replies, clock, v, f, served, ticks, normalize, show);
    }
  }

  /** With the normalisation of the scripts, a burst of the sweep ends normally exactly
      when the counter gave at least one reply, every reply reads as a number and their
      mean is not zero; the relative values it then records sum to zero, and the values
      with the drift removed have neither offset nor slope left. */
  lemma {:induction false} SweepBurstNormalized(cfg: Config, replies: nat -> string, clock: nat -> string, v: int, f: int,
                                                served: nat, ticks: nat, float: Conversion, show: Render)
    requires RejectsEmpty(float)
    ensures (NormalizedKeepsLength(float);
      var q, x := SweepBurst(cfg, replies, clock, v, f, served, ticks, Normalized(float), show), Samples(replies, served + 1, cfg.samples);
      && (q.outcome == Done <==> cfg.samples > 0 && AllNumeric(float, x) && NumericMean(float, x) != 0.0)
      && (cfg.samples == 0 ==> q.outcome == Aborted(StatisticsError))
      && (q.outcome == Done ==>
            var y, n := Normalize(float, x).value, cfg.samples;
            && |q.events| == 29 + 2 * n
            && q.events[27 + 2 * n].rows == Rendered(show, y)
            && q.events[28 + 2 * n].rows == Rendered(show, RemoveDrift(y))
            && |y| == n && Sum(y) == 0.0
            && |RemoveDrift(y)| == n && Sum(RemoveDrift(y)) == 0.0 && Moment(RemoveDrift(y)) == 0.0))
  {
    NormalizedKeepsLength(float);
    var x := Samples(replies, served + 1, cfg.samples);
    SweepBurstEnd(cfg, replies, clock, v, f, served, ticks, Normalized(float), show);
    NormalizeSpec(float, x);
    if SweepBurst(cfg, replies, clock, v, f, served, ticks, Normalized(float), show).outcome == Done {
      SweepBurstDone(cfg, replies, clock, v, f, served, ticks, Normalized(float), show);
      NormalizedSumIsZero(float, x);
    }
  }

  /** A point that ends normally takes one timestamp and writes three files per
      repetition; the calibrator's part adds none. */
  lemma {:induction false} PointCount(cfg: Config, replies: nat -> string, clock: nat -> string, pt: Point,
                                      served: nat, ticks: nat, normalize: Normalizer, show: Render)
    requires KeepsLength(normalize)
    requires PointStep(cfg, replies, clock, pt, served, ticks, normalize, show).outcome == Done
    ensures var p := PointStep(cfg, replies, clock, pt, served, ticks, normalize, show);
      && p.ticks == ticks + cfg.rep
      && |SavedNames(p.events)| == 3 * cfg.rep
  {
    var r := Reps(cfg, replies, clock, pt.volts, pt.hertz, served, ticks, cfg.rep, normalize, show);
    RepsCount(cfg, replies, clock, pt.volts, pt.hertz, served, ticks, cfg.rep, normalize, show);
    SourceQuiet(pt.volts, pt.hertz, cfg.wait);
    QuietBefore(SourceEvents(pt.volts, pt.hertz, cfg.wait), r.events);
  }

  /** A run of points that ends normally takes `rep` timestamps and writes `3 * rep`
      files per point. */
  lemma {:induction false} PointsCount(cfg: Config, replies: nat -> string, clock: nat -> string, ps: seq<Point>,
                                       served: nat, ticks: nat, normalize: Normalizer, show: Render)
    requires KeepsLength(normalize)
    requires Points(cfg, replies, clock, ps, served, ticks, normalize, show).outcome == Done
    ensures var p := Points(cfg, replies, clock, ps, served, ticks, normalize, show);
      && p.ticks == ticks + |ps| * cfg.rep
      && |SavedNames(p.events)| == |ps| * (3 * cfg.rep)
    decreases |ps|
  {
    if |ps| > 0 {
      var init := ps[..|ps| - 1];
      PointsStep(cfg, replies, clock, ps, served, ticks, normalize, show);
      PointsCount(cfg, replies, clock, init, served, ticks, normalize, show);
      var p, r := Points(cfg, replies, clock, init, served, ticks, normalize, show),
                  Points(cfg, replies, clock, ps, served, ticks, normalize, show);
      CountStep(|init|, |ps|, ticks, p.ticks, r.ticks, cfg.rep);
      CountStep(|init|, |ps|, 0, |SavedNames(p.events)|, |SavedNames(r.events)|, 3 * cfg.rep);
    }
  }

  /** One more point that ends normally, after points that end normally, adds `rep`
      timestamps and `3 * rep` files. */
  lemma {:induction false} PointsStep(cfg: Config, replies: nat -> string, clock: nat -> string, ps: seq<Point>,
                                      served: nat, ticks: nat, normalize: Normalizer, show: Render)
    requires KeepsLength(normalize)
    requires |ps| > 0 && Points(cfg, replies, clock, ps, served, ticks, normalize, show).outcome == Done
    ensures var p, r := Points(cfg, replies, clock, ps[..|ps| - 1], served, ticks, normalize, show),
                        Points(cfg, replies, clock, ps, served, ticks, normalize, show);
      && p.outcome == Done
      && r.ticks == p.ticks + cfg.rep
      && |SavedNames(r.events)| == |SavedNames(p.events)| + 3 * cfg.rep
  {
    var p := Points(cfg, replies, clock, ps[..|ps| - 1], served, ticks, normalize, show);
    var q := PointStep(cfg, replies, clock, ps[|ps| - 1], p.served, p.ticks, normalize, show);
    PointCount(cfg, replies, clock, ps[|ps| - 1], p.served, p.ticks, normalize, show);
    ObserversAppend(p.events, q.events);
  }

  lemma {:induction false} CountStep(prev: nat, k: nat, base: int, before: int, after: int, per: int)
    requires k == prev + 1 && before == base + prev * per && after == before + per
    ensures after == base + k * per
  {
  }

  /** A sweep that ends normally repeats the burst `rep` times at each of its five
      points: it takes `5 * rep` timestamps and writes `15 * rep` files. */
  lemma {:induction false} SweepCount(cfg: Config, replies: nat -> string, clock: nat -> string, served: nat, ticks: nat,
                                      float: Conversion, show: Render)
    requires SweepRun(cfg, replies, clock, served, ticks, float, show).outcome == Done
    ensures SweepRun(cfg, replies, clock, served, ticks, float, show).ticks == ticks + 5 * cfg.rep
    ensures |SavedNames(SweepRun(cfg, replies, clock, served, ticks, float, show).events)| == 15 * cfg.rep
  {
    NormalizedKeepsLength(float);
    KeptPoints();
    PointsCount(cfg, replies, clock, Kept(Voltages, Frequencies), served, ticks, Normalized(float), show);
  }

  /** Within one timestamp, the files of the sweep never overwrite one another: their
      names coincide only for the same point and the same record kind. */
  lemma {:induction false} SweepFilesDistinct(ts: string, v: int, f: int, k: Kind, v': int, f': int, k': Kind)
    ensures FileName(SweepStem(ts, v, f), k) == FileName(SweepStem(ts, v', f'), k') <==> v == v' && f == f' && k == k'
  {
    var a, a' := FileName(SweepStem(ts, v, f), k), FileName(SweepStem(ts, v', f'), k');
    if a == a' {
      if k != k' {
        if |Suffix(k)| < |Suffix(k')| {
          SuffixClash(ts, v, f, k, v', f', k');
        } else {
          SuffixClash(ts, v', f', k', v, f, k);
        }
      }
      var stem, stem' := SweepStem(ts, v, f), SweepStem(ts, v', f');
      assert stem == a[..|a| - |Suffix(k)|] && stem' == a'[..|a'| - |Suffix(k)|];
      SweepStemInjective(ts, v, f, v', f');
    }
  }

  /** A sweep file name shows 'H' just before its suffix, where a longer suffix shows
      another letter. */
  lemma {:induction false} SuffixClash(ts: string, v: int, f: int, k: Kind, v': int, f': int, k': Kind)
    requires |Suffix(k)| < |Suffix(k')|
    ensures FileName(SweepStem(ts, v, f), k) != FileName(SweepStem(ts, v', f'), k')
  {
    var stem, stem' := SweepStem(ts, v, f), SweepStem(ts, v', f');
    var a, a' := stem + Suffix(k), stem' + Suffix(k');
    var d := |Suffix(k)| + 2;
    StemEndsInHz(ts, v, f);
    CharAt(stem, Suffix(k), |stem| - 2);
    if |a| == |a'| {
      SuffixLetter(k, k');
      CharAt(stem', Suffix(k'), |a'| - d);
    }
  }

  /** Every sweep stem ends in "Hz". */
  lemma {:induction false} StemEndsInHz(ts: string, v: int, f: int)
    ensures |SweepStem(ts, v, f)| >= 2 && SweepStem(ts, v, f)[|SweepStem(ts, v, f)| - 2] == 'H'
  {
    var p := ts + "_" + IntToString(v) + "V_" + IntToString(f);
    assert SweepStem(ts, v, f) == p + "Hz";
  }

  /** Where a shorter suffix has the 'H' of its stem, a longer suffix has another letter. */
  lemma {:induction false} SuffixLetter(k: Kind, k': Kind)
    requires |Suffix(k)| < |Suffix(k')|
    ensures Suffix(k')[|Suffix(k')| - |Suffix(k)| - 2] != 'H'
  {
  }

  lemma {:induction false} CharAt(s: string, t: string, i: nat)
    requires i < |s + t|
    ensures (s + t)[i] == if i < |s| then s[i] else t[i - |s|]
  {
  }

  /** Running one more point extends the run, unless it had already stopped. */
  lemma {:induction false} PointsSnoc(cfg: Config, replies: nat -> string, clock: nat -> string, ps: seq<Point>, pt: Point,
                                      served: nat, ticks: nat, normalize: Normalizer, show: Render)
    requires KeepsLength(normalize)
    ensures var p := Points(cfg, replies, clock, ps, served, ticks, normalize, show);
      Points(cfg, replies, clock, ps + [pt], served, ticks, normalize, show)
        == if p.outcome.Aborted? then p else Then(p, PointStep(cfg, replies, clock, pt, p.served, p.ticks, normalize, show))
  {
    assert (ps + [pt])[..|ps|] == ps;
  }

  /** An exception ends the sweep: the points that would have come later leave no trace. */
  lemma {:induction false} PointsAbortPersists(cfg: Config, replies: nat -> string, clock: nat -> string,
                                               ps: seq<Point>, qs: seq<Point>, served: nat, ticks: nat,
                                               normalize: Normalizer, show: Render)
    requires KeepsLength(normalize)
    requires ps <= qs
    requires Points(cfg, replies, clock, ps, served, ticks, normalize, show).outcome.Aborted?
    ensures Points(cfg, replies, clock, qs, served, ticks, normalize, show) == Points(cfg, replies, clock, ps, served, ticks, normalize, show)
    decreases |qs|
  {
    if |qs| > |ps| {
      assert ps <= qs[..|qs| - 1];
      PointsAbortPersists(cfg, replies, clock, ps, qs[..|qs| - 1], served, ticks, normalize, show);
    } else {
      assert ps == qs;
    }
  }

  /** An exception ends the repetitions at a point: the later ones leave no trace. */
  lemma {:induction false} RepsAbortPersists(cfg: Config, replies: nat -> string, clock: nat -> string, v: int, f: int,
                                             served: nat, ticks: nat, k: nat, m: nat, normalize: Normalizer, show: Render)
    requires KeepsLength(normalize)
    requires k <= m
    requires Reps(cfg, replies, clock, v, f, served, ticks, k, normalize, show).outcome.Aborted?
    ensures Reps(cfg, replies, clock, v, f, served, ticks, m, normalize, show) == Reps(cfg, replies, clock, v, f, served, ticks, k, normalize, show)
  {
    var j := k;
    while j < m
      invariant k <= j <= m
      invariant Reps(cfg, replies, clock, v, f, served, ticks, j, normalize, show) == Reps(cfg, replies, clock, v, f, served, ticks, k, normalize, show)
    {
      RepsAbortStep(cfg, replies, clock, v, f, served, ticks, j + 1, normalize, show);
      j := j + 1;
    }
  }

  /** Repetitions that have stopped stay stopped for one more round. */
  lemma {:induction false} RepsAbortStep(cfg: Config, replies: nat -> string, clock: nat -> string, v: int, f: int,
                                         served: nat, ticks: nat, m: nat, normalize: Normalizer, show: Render)
    requires KeepsLength(normalize)
    requires m > 0
    ensures var p := Reps(cfg, replies, clock, v, f, served, ticks, m - 1, normalize, show);
      p.outcome.Aborted? ==> Reps(cfg, replies, clock, v, f, served, ticks, m, normalize, show) == p
  {
  }

  /** The inner loop visits one more point. */
  lemma {:induction false} RowStep(done: seq<Point>, v: int, fs: seq<int>, j: nat)
    requires j < BreakIndex(v, fs)
    ensures done + KeptRow(v, fs)[..j] + [Point(v, fs[j])] == done + KeptRow(v, fs)[..j + 1]
  {
    var row := KeptRow(v, fs);
    assert row[..j + 1] == row[..j] + [Point(v, fs[j])];
  }

  /** The visited points of a row are all of them once the loop is done with it, and
      none of them before it starts. */
  lemma {:induction false} RowWhole(done: seq<Point>, v: int, fs: seq<int>, j: nat)
    requires j == 0 || j == BreakIndex(v, fs)
    ensures j == 0 ==> done + KeptRow(v, fs)[..j] == done
    ensures j == BreakIndex(v, fs) ==> done + KeptRow(v, fs)[..j] == done + KeptRow(v, fs)
  {
    var row := KeptRow(v, fs);
    if j == 0 {
      assert row[..j] == [];
    }
    if j == BreakIndex(v, fs) {
      assert row[..j] == row;
    }
  }

  /** One more voltage adds its row. */
  lemma {:induction false} KeptSnoc(vs: seq<int>, fs: seq<int>, i: nat)
    requires i < |vs|
    ensures Kept(vs[..i + 1], fs) == Kept(vs[..i], fs) + KeptRow(vs[i], fs)
  {
    assert vs[..i + 1][..i] == vs[..i];
  }

  /** The points of a row visited so far are where the row begins. */
  lemma {:induction false} RowPrefix(done: seq<Point>, v: int, fs: seq<int>, j: nat)
    requires j <= BreakIndex(v, fs)
    ensures done + KeptRow(v, fs)[..j] <= done + KeptRow(v, fs)
  {
    var row := KeptRow(v, fs);
    assert (done + row)[..|done| + j] == done + row[..j];
  }

  /** The points of the first voltages come first. */
  lemma {:induction false} KeptGrows(vs: seq<int>, fs: seq<int>, i: nat)
    requires i <= |vs|
    ensures Kept(vs[..i], fs) <= Kept(vs, fs)
    decreases |vs| - i
  {
    if i < |vs| {
      KeptGrows(vs, fs, i + 1);
      assert vs[..i + 1][..i] == vs[..i];
    } else {
      assert vs[..i] == vs;
    }
  }
}
