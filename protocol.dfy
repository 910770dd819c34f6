/** One burst of the frequency counter, as all three scripts run it: the configuration
    commands, a frequency estimate whose answer is sent back as the expected frequency,
    N trigger/read pairs and the closing reset. Each step is a method on the bench,
    proved to append exactly the events of a specification function of the reply
    stream; the lemmas state what those event sequences look like. */
module Protocol {
  import opened Instruments

  /** The counter's initialisation: reset, clear status, no service requests. */
  const InitializeCommands: seq<Command> := [Rst, Cls, ServiceRequestsOff, EventStatusOff, PresetStatus]

  /** Settings for maximum throughput. */
  const ThroughputCommands: seq<Command> := [AsciiFormat, FrequencyFunction, TriggerLevelZero]

  /** The gate: start at once, stop on a timer of `gate` seconds. */
  function GateCommands(gate: string): seq<Command>
  {
    [StartImmediately, StopOnTimer, StopTime(gate)]
  }

  /** Internal oscillator, no automatic interpolator calibration, display off. */
  const HardwareCommands: seq<Command> := [InternalOscillator, InterpolatorCalibrationOff, DisplayOff]

  /** No post-processing, then continuous initiation. */
  const PostProcessingCommands: seq<Command> :=
    [MathOff, LimitsOff, AveragingOff, HardcopyOff, FetchOnTrigger, ContinuousOn]

  /** The configuration commands, in the order they are written. */
  function SetupCommands(gate: string): seq<Command>
  {
    InitializeCommands + ThroughputCommands + GateCommands(gate) + HardwareCommands + PostProcessingCommands
  }

  /** The commands that return the counter to free-running mode after a burst. */
  const ResetCommands: seq<Command> := [Rst, Cls, ContinuousOn]

  function Writes(device: Device, commands: seq<Command>): seq<Event>
  {
    seq(|commands|, i requires 0 <= i < |commands| => Write(device, commands[i]))
  }

  lemma {:induction false} WritesAppend(device: Device, a: seq<Command>, b: seq<Command>)
    ensures Writes(device, a + b) == Writes(device, a) + Writes(device, b)
  {
  }

  lemma {:induction false} WritesOfThree(device: Device, a: Command, b: Command, c: Command)
    ensures Writes(device, [a, b, c]) == [Write(device, a), Write(device, b), Write(device, c)]
  {
  }

  lemma {:induction false} ThreeThenOne(a: Event, b: Event, c: Event, d: Event)
    ensures [a, b, c] + [d] == [a, b, c, d]
  {
  }

  /** Configuration, then the frequency estimate `f0`, echoed verbatim as the expected
      frequency. */
  function SetupEvents(gate: string, f0: string): seq<Event>
  {
    Writes(Counter, SetupCommands(gate)) + [Query(FetchFrequency, f0), Write(Counter, ExpectedFrequency(f0))]
  }

  /** `n` trigger/read pairs whose reads are answered from `replies(start)` on. */
  function AcquireEvents(replies: nat -> string, start: nat, n: nat): seq<Event>
  {
    if n == 0 then [] else AcquireEvents(replies, start, n - 1) + [Trigger, Read(replies(start + n - 1))]
  }

  /** The samples of a burst: the `n` answers from `replies(start)` on, in read order. */
  function Samples(replies: nat -> string, start: nat, n: nat): (x: seq<string>)
    ensures |x| == n
  {
    seq(n, i requires 0 <= i < n => replies(start + i))
  }

  function ResetEvents(): seq<Event>
  {
    Writes(Counter, ResetCommands)
  }

  /** A whole burst whose first answer, at `start`, is the frequency estimate. */
  function BurstEvents(gate: string, replies: nat -> string, start: nat, n: nat): seq<Event>
  {
    SetupEvents(gate, replies(start)) + AcquireEvents(replies, start + 1, n) + ResetEvents()
  }

  method Initialize(b: Bench)
    modifies b
    ensures b.trace == old(b.trace) + Writes(Counter, InitializeCommands)
    ensures b.served == old(b.served) && b.ticks == old(b.ticks)
  {
    b.Write(Counter, Rst);
    b.Write(Counter, Cls);
    b.Write(Counter, ServiceRequestsOff);
    b.Write(Counter, EventStatusOff);
    b.Write(Counter, PresetStatus);
  }

  method Throughput(b: Bench)
    modifies b
    ensures b.trace == old(b.trace) + Writes(Counter, ThroughputCommands)
    ensures b.served == old(b.served) && b.ticks == old(b.ticks)
  {
    b.Write(Counter, AsciiFormat);
    b.Write(Counter, FrequencyFunction);
    b.Write(Counter, TriggerLevelZero);
  }

  method Gate(b: Bench, gate: string)
    modifies b
    ensures b.trace == old(b.trace) + Writes(Counter, GateCommands(gate))
    ensures b.served == old(b.served) && b.ticks == old(b.ticks)
  {
    b.Write(Counter, StartImmediately);
    b.Write(Counter, StopOnTimer);
    b.Write(Counter, StopTime(gate));
  }

  method Hardware(b: Bench)
    modifies b
    ensures b.trace == old(b.trace) + Writes(Counter, HardwareCommands)
    ensures b.served == old(b.served) && b.ticks == old(b.ticks)
  {
    b.Write(Counter, InternalOscillator);
    b.Write(Counter, InterpolatorCalibrationOff);
    b.Write(Counter, DisplayOff);
  }

  method PostProcessing(b: Bench)
    modifies b
    ensures b.trace == old(b.trace) + Writes(Counter, PostProcessingCommands)
    ensures b.served == old(b.served) && b.ticks == old(b.ticks)
  {
    b.Write(Counter, MathOff);
    b.Write(Counter, LimitsOff);
    b.Write(Counter, AveragingOff);
    b.Write(Counter, HardcopyOff);
    b.Write(Counter, FetchOnTrigger);
    b.Write(Counter, ContinuousOn);
  }

  /** The whole configuration and the frequency estimate. */
  method Configure(b: Bench, gate: string) returns (f0: string)
    modifies b
    ensures f0 == b.replies(old(b.served))
    ensures b.trace == old(b.trace) + SetupEvents(gate, f0)
    ensures b.served == old(b.served) + 1 && b.ticks == old(b.ticks)
  {
    Initialize(b);
    Throughput(b);
    Gate(b, gate);
    Hardware(b);
    PostProcessing(b);
    f0 := b.Query(FetchFrequency);
    b.Write(Counter, ExpectedFrequency(f0));
    SetupGroups(old(b.trace), gate, f0);
  }

  /** The configuration groups, written one after the other, make up the setup. */
  lemma {:induction false} SetupGroups(t: seq<Event>, gate: string, f0: string)
    ensures t + Writes(Counter, InitializeCommands) + Writes(Counter, ThroughputCommands)
      + Writes(Counter, GateCommands(gate)) + Writes(Counter, HardwareCommands)
      + Writes(Counter, PostProcessingCommands) + [Query(FetchFrequency, f0)]
      + [Write(Counter, ExpectedFrequency(f0))]
      == t + SetupEvents(gate, f0)
  {
    WritesGroups(t, InitializeCommands, ThroughputCommands, GateCommands(gate), HardwareCommands, PostProcessingCommands,
      [Query(FetchFrequency, f0)] + [Write(Counter, ExpectedFrequency(f0))]);
    assert [Query(FetchFrequency, f0)] + [Write(Counter, ExpectedFrequency(f0))] == [Query(FetchFrequency, f0), Write(Counter, ExpectedFrequency(f0))];
  }

  /** Five groups of writes, one after the other, are the writes of the five groups. */
  lemma {:induction false} WritesGroups(t: seq<Event>, a: seq<Command>, b: seq<Command>, c: seq<Command>,
                                        d: seq<Command>, e: seq<Command>, rest: seq<Event>)
    ensures t + Writes(Counter, a) + Writes(Counter, b) + Writes(Counter, c) + Writes(Counter, d) + Writes(Counter, e) + rest
      == t + (Writes(Counter, a + b + c + d + e) + rest)
  {
    WritesAppend(Counter, a, b);
    WritesAppend(Counter, a + b, c);
    WritesAppend(Counter, a + b + c, d);
    WritesAppend(Counter, a + b + c + d, e);
  }

  /** The acquisition loop: a fresh list, grown by one read per trigger. */
  method Acquire(b: Bench, n: nat) returns (x: seq<string>)
    modifies b
    ensures x == Samples(b.replies, old(b.served), n)
    ensures b.trace == old(b.trace) + AcquireEvents(b.replies, old(b.served), n)
    ensures b.served == old(b.served) + n && b.ticks == old(b.ticks)
  {
    x := [];
    var i := 0;
    while i < n
      invariant i <= n
      invariant b.served == old(b.served) + i && b.ticks == old(b.ticks)
      invariant x == Samples(b.replies, old(b.served), i)
      invariant b.trace == old(b.trace) + AcquireEvents(b.replies, old(b.served), i)
    {
      b.AssertTrigger();
      var reply := b.Read();
      x := x + [reply];
      i := i + 1;
    }
  }

  method Reset(b: Bench)
    modifies b
    ensures b.trace == old(b.trace) + ResetEvents()
    ensures b.served == old(b.served) && b.ticks == old(b.ticks)
  {
    b.Write(Counter, Rst);
    b.Write(Counter, Cls);
    b.Write(Counter, ContinuousOn);
  }

  /** Configure, acquire `n` samples and reset, with no other step in between. */
  method Burst(b: Bench, gate: string, n: nat) returns (x: seq<string>)
    modifies b
    ensures x == Samples(b.replies, old(b.served) + 1, n)
    ensures b.trace == old(b.trace) + BurstEvents(gate, b.replies, old(b.served), n)
    ensures b.served == old(b.served) + 1 + n && b.ticks == old(b.ticks)
  {
    var f0 := Configure(b, gate);
    x := Acquire(b, n);
    Reset(b);
  }

  /** The acquisition alternates strictly: the k-th trigger is followed by the read that
      yields the k-th answer. */
  lemma {:induction false} AcquireShape(replies: nat -> string, start: nat, n: nat)
    ensures |AcquireEvents(replies, start, n)| == 2 * n
    ensures forall k :: 0 <= k < n ==>
      AcquireEvents(replies, start, n)[2 * k] == Trigger &&
      AcquireEvents(replies, start, n)[2 * k + 1] == Read(replies(start + k))
  {
    if n > 0 {
      AcquireShape(replies, start, n - 1);
    }
  }

  /** What the acquisition leaves in the trace: exactly `n` triggers, reads answering
      with the samples in order, and no file. */
  lemma {:induction false} AcquireObserved(replies: nat -> string, start: nat, n: nat)
    ensures ReadsOf(AcquireEvents(replies, start, n)) == Samples(replies, start, n)
    ensures Triggers(AcquireEvents(replies, start, n)) == n
    ensures SavedNames(AcquireEvents(replies, start, n)) == []
    ensures Close !in AcquireEvents(replies, start, n)
  {
    if n > 0 {
      AcquireObserved(replies, start, n - 1);
      PairObserved(replies(start + n - 1));
      ObserversAppend(AcquireEvents(replies, start, n - 1), [Trigger, Read(replies(start + n - 1))]);
      assert Samples(replies, start, n) == Samples(replies, start, n - 1) + [replies(start + n - 1)];
    }
  }

  lemma {:induction false} PairObserved(reply: string)
    ensures ReadsOf([Trigger, Read(reply)]) == [reply]
    ensures Triggers([Trigger, Read(reply)]) == 1
    ensures SavedNames([Trigger, Read(reply)]) == []
  {
    var pair, last: seq<Event> := [Trigger, Read(reply)], [Read(reply)];
    assert pair[1..] == last && last[1..] == [];
    assert ReadsOf(last) == [reply] && Triggers(last) == 0 && SavedNames(last) == [];
  }

  /** Counter commands alone are writes: no trigger, no read, no file. */
  lemma {:induction false} WritesObserved(device: Device, commands: seq<Command>)
    ensures ReadsOf(Writes(device, commands)) == []
    ensures Triggers(Writes(device, commands)) == 0
    ensures SavedNames(Writes(device, commands)) == []
    decreases |commands|
  {
    if |commands| > 0 {
      WritesObserved(device, commands[1..]);
      assert Writes(device, commands)[1..] == Writes(device, commands[1..]);
    }
  }

  /** The setup is the twenty configuration writes, the stop-timer command carrying the
      gate size among them, then the frequency query and the expected-frequency command
      carrying its answer. */
  lemma {:induction false} SetupShape(gate: string, f0: string)
    ensures |SetupEvents(gate, f0)| == 22
    ensures SetupEvents(gate, f0)[0] == Write(Counter, Rst)
    ensures SetupEvents(gate, f0)[10] == Write(Counter, StopTime(gate))
    ensures SetupEvents(gate, f0)[20] == Query(FetchFrequency, f0)
    ensures SetupEvents(gate, f0)[21] == Write(Counter, ExpectedFrequency(f0))
    ensures forall i :: 0 <= i < 20 ==> SetupEvents(gate, f0)[i].Write? && SetupEvents(gate, f0)[i].device == Counter
    ensures Close !in SetupEvents(gate, f0)
  {
  }

  /** The setup reads nothing, triggers nothing and writes no file. */
  lemma {:induction false} SetupObserved(gate: string, f0: string)
    ensures ReadsOf(SetupEvents(gate, f0)) == []
    ensures Triggers(SetupEvents(gate, f0)) == 0
    ensures SavedNames(SetupEvents(gate, f0)) == []
  {
    WritesObserved(Counter, SetupCommands(gate));
    QuietEstimate(Writes(Counter, SetupCommands(gate)), f0);
  }

  /** The frequency estimate, after writes that show nothing, shows nothing either. */
  lemma {:induction false} QuietEstimate(w: seq<Event>, f0: string)
    requires ReadsOf(w) == [] && Triggers(w) == 0 && SavedNames(w) == []
    ensures var s := w + [Query(FetchFrequency, f0), Write(Counter, ExpectedFrequency(f0))];
      ReadsOf(s) == [] && Triggers(s) == 0 && SavedNames(s) == []
  {
    var q, e := Query(FetchFrequency, f0), Write(Counter, ExpectedFrequency(f0));
    SingleObserved(e);
    assert [q, e][1..] == [e];
    QuietBefore(w, [q, e]);
  }

  /** The order inside one burst: configuration and the frequency estimate first, then
      the `n` trigger/read pairs, then the three reset commands last; the burst's reads
      are exactly the samples, and the estimate is not one of them. */
  lemma {:induction false} BurstOrder(gate: string, replies: nat -> string, start: nat, n: nat)
    ensures var e := BurstEvents(gate, replies, start, n);
      && |e| == 25 + 2 * n
      && e[..22] == SetupEvents(gate, replies(start))
      && (forall k :: 0 <= k < n ==> e[22 + 2 * k] == Trigger && e[23 + 2 * k] == Read(replies(start + 1 + k)))
      && e[22 + 2 * n..] == [Write(Counter, Rst), Write(Counter, Cls), Write(Counter, ContinuousOn)]
  {
    var s, a, r := SetupEvents(gate, replies(start)), AcquireEvents(replies, start + 1, n), ResetEvents();
    SetupShape(gate, replies(start));
    AcquireShape(replies, start + 1, n);
    var e := s + a + r;
    forall k | 0 <= k < n
      ensures e[22 + 2 * k] == Trigger && e[23 + 2 * k] == Read(replies(start + 1 + k))
    {
      assert e[22 + 2 * k] == a[2 * k];
      assert e[23 + 2 * k] == a[2 * k + 1];
    }
    assert e[..22] == s;
    assert e[22 + 2 * n..] == r;
  }

  /** Across a whole burst the counter is triggered exactly `n` times, its reads yield
      the samples in order and no file is written. */
  lemma {:induction false} BurstObserved(gate: string, replies: nat -> string, start: nat, n: nat)
    ensures ReadsOf(BurstEvents(gate, replies, start, n)) == Samples(replies, start + 1, n)
    ensures Triggers(BurstEvents(gate, replies, start, n)) == n
    ensures SavedNames(BurstEvents(gate, replies, start, n)) == []
  {
    var s, a := SetupEvents(gate, replies(start)), AcquireEvents(replies, start + 1, n);
    SetupObserved(gate, replies(start));
    AcquireObserved(replies, start + 1, n);
    WritesObserved(Counter, ResetCommands);
    ObserversAppend(s, a);
    ObserversAppend(s + a, ResetEvents());
  }

}
