/** The measurement bench as the scripts drive it: the frequency counter and the
    calibrator on the GPIB bus, the process clock and the file system. Every effect is
    recorded, in program order, as one event of a single trace, so that orderings across
    devices and files can be stated. The bus traffic itself is not modelled: what the
    counter answers, to a query or to a read, is the next element of the stream
    `replies`; what the formatted datetime.now() yields is the next element of `clock`. */
module Instruments {
  import opened Text
  import opened Records

  datatype Device = Counter | Source

  /** The commands the scripts send, by meaning; `CommandText` is the text on the bus. */
  datatype Command =
    | Rst | Cls | ServiceRequestsOff | EventStatusOff | PresetStatus
    | AsciiFormat | FrequencyFunction | TriggerLevelZero
    | StartImmediately | StopOnTimer | StopTime(gate: string)
    | InternalOscillator | InterpolatorCalibrationOff | DisplayOff
    | MathOff | LimitsOff | AveragingOff | HardcopyOff | FetchOnTrigger | ContinuousOn
    | FetchFrequency | ExpectedFrequency(f0: string)
    | Standby | OutputVoltage(volts: int) | OutputFrequency(hertz: int) | Operate

  /** The fixed text around the arguments of the commands that carry one. */
  const StopTimeText: string := ":FREQ:ARM:STOP:TIM "
  const ExpectedText: string := ":FREQ:EXP1 "
  const VoltageText: string := "OUT +"
  const VoltsText: string := ".000000 V"
  const FrequencyText: string := "OUT "
  const HertzText: string := " HZ"

  function CommandText(c: Command): string
  {
    match c
    case Rst => "*RST"
    case Cls => "*CLS"
    case ServiceRequestsOff => "*SRE 0"
    case EventStatusOff => "*ESE 0"
    case PresetStatus => ":STAT:PRES"
    case AsciiFormat => ":FORMAT ASCII"
    case FrequencyFunction => ":FUNC 'FREQ 1'"
    case TriggerLevelZero => ":EVENT1:LEVEL 0"
    case StartImmediately => ":FREQ:ARM:STAR:SOUR IMM"
    case StopOnTimer => ":FREQ:ARM:STOP:SOUR TIM"
    case StopTime(gate) => StopTimeText + gate
    case InternalOscillator => ":ROSC:SOUR INT"
    case InterpolatorCalibrationOff => ":DIAG:CAL:INT:AUTO OFF"
    case DisplayOff => ":DISP:ENAB OFF"
    case MathOff => ":CALC:MATH:STATE OFF"
    case LimitsOff => ":CALC2:LIM:STATE OFF"
    case AveragingOff => ":CALC3:AVER:STATE OFF"
    case HardcopyOff => ":HCOPY:CONT OFF"
    case FetchOnTrigger => "*DDT #15FETC?"
    case ContinuousOn => ":INIT:CONT ON"
    case FetchFrequency => "FETCH:FREQ?"
    case ExpectedFrequency(f0) => ExpectedText + f0
    case Standby => "STBY"
    // an integer voltage printed with six decimals: its digits, then six zeros
    case OutputVoltage(v) => VoltageText + IntToString(v) + VoltsText
    case OutputFrequency(f) => FrequencyText + IntToString(f) + HertzText
    case Operate => "OPER"
  }

  /** The gate size and the frequency estimate reach the counter verbatim, after a fixed
      prefix. */
  lemma {:induction false} CounterArgumentsVerbatim(gate: string, f0: string)
    ensures CommandText(StopTime(gate))[|StopTimeText|..] == gate
    ensures CommandText(ExpectedFrequency(f0))[|ExpectedText|..] == f0
  {
    Between(StopTimeText, gate, "");
    Between(ExpectedText, f0, "");
  }

  /** The applied voltage and frequency reach the calibrator as their decimal digits,
      between a fixed prefix and their unit. */
  lemma {:induction false} SourceArgumentsVerbatim(v: int, f: int)
    ensures var t := CommandText(OutputVoltage(v)); t[|VoltageText|..|t| - |VoltsText|] == IntToString(v)
    ensures var t := CommandText(OutputFrequency(f)); t[|FrequencyText|..|t| - |HertzText|] == IntToString(f)
  {
    Between(VoltageText, IntToString(v), VoltsText);
    Between(FrequencyText, IntToString(f), HertzText);
  }

  /** The middle of three strings is found between the other two. */
  lemma {:induction false} Between(p: string, x: string, q: string)
    ensures (p + x + q)[|p|..|p + x + q| - |q|] == x
    ensures q == [] ==> (p + x + q)[|p|..] == x
  {
  }

  datatype Event =
    | Write(device: Device, command: Command)  // inst.write / source.write of CommandText(command)
    | Query(command: Command, reply: string)   // inst.query: a command and its answer
    | Trigger                                  // inst.assert_trigger()
    | Read(reply: string)                      // inst.read()
    | Close                                    // inst.close()
    | Sleep(seconds: nat)                      // time.sleep
    | Save(stem: string, ts: string, kind: Kind, observation: string, rows: seq<string>)
      // the record file FileName(stem, kind), holding the lines Record(ts, kind, observation, rows)

  class Bench {
    const replies: nat -> string
    const clock: nat -> string
    /** Everything that happened so far, oldest first. */
    var trace: seq<Event>
    /** How many answers the counter has given. */
    var served: nat
    /** How many timestamps have been taken. */
    var ticks: nat

    constructor (replies: nat -> string, clock: nat -> string)
      ensures this.replies == replies && this.clock == clock
      ensures trace == [] && served == 0 && ticks == 0
    {
      this.replies := replies;
      this.clock := clock;
      trace := [];
      served := 0;
      ticks := 0;
    }

    method Write(device: Device, command: Command)
      modifies this
      ensures trace == old(trace) + [Event.Write(device, command)]
      ensures served == old(served) && ticks == old(ticks)
    {
      trace := trace + [Event.Write(device, command)];
    }

    method Query(command: Command) returns (answer: string)
      modifies this
      ensures answer == replies(old(served))
      ensures trace == old(trace) + [Event.Query(command, answer)]
      ensures served == old(served) + 1 && ticks == old(ticks)
    {
      answer := replies(served);
      trace := trace + [Event.Query(command, answer)];
      served := served + 1;
    }

    method AssertTrigger()
      modifies this
      ensures trace == old(trace) + [Event.Trigger]
      ensures served == old(served) && ticks == old(ticks)
    {
      trace := trace + [Event.Trigger];
    }

    method Read() returns (answer: string)
      modifies this
      ensures answer == replies(old(served))
      ensures trace == old(trace) + [Event.Read(answer)]
      ensures served == old(served) + 1 && ticks == old(ticks)
    {
      answer := replies(served);
      trace := trace + [Event.Read(answer)];
      served := served + 1;
    }

    method Close()
      modifies this
      ensures trace == old(trace) + [Event.Close]
      ensures served == old(served) && ticks == old(ticks)
    {
      trace := trace + [Event.Close];
    }

    method Sleep(seconds: nat)
      modifies this
      ensures trace == old(trace) + [Event.Sleep(seconds)]
      ensures served == old(served) && ticks == old(ticks)
    {
      trace := trace + [Event.Sleep(seconds)];
    }

    /** The formatted current time; taking it leaves no event. */
    method Now() returns (ts: string)
      modifies this
      ensures ts == clock(old(ticks))
      ensures trace == old(trace) && served == old(served) && ticks == old(ticks) + 1
    {
      ts := clock(ticks);
      ticks := ticks + 1;
    }

    /** Writes a record file and closes it. */
    method Save(stem: string, ts: string, kind: Kind, observation: string, rows: seq<string>)
      modifies this
      ensures trace == old(trace) + [Event.Save(stem, ts, kind, observation, rows)]
      ensures served == old(served) && ticks == old(ticks)
    {
      trace := trace + [Event.Save(stem, ts, kind, observation, rows)];
    }
  }

  /** The answers of the counter's reads, in trace order. */
  function ReadsOf(t: seq<Event>): seq<string>
  {
    if |t| == 0 then [] else (if t[0].Read? then [t[0].reply] else []) + ReadsOf(t[1..])
  }

  /** The names of the files written, in trace order. */
  function SavedNames(t: seq<Event>): seq<string>
  {
    if |t| == 0 then [] else (if t[0].Save? then [FileName(t[0].stem, t[0].kind)] else []) + SavedNames(t[1..])
  }

  /** How many times the counter was triggered. */
  function Triggers(t: seq<Event>): nat
  {
    if |t| == 0 then 0 else (if t[0] == Trigger then 1 else 0) + Triggers(t[1..])
  }

  /** Appending two pieces one after the other appends their concatenation. */
  lemma {:induction false} Extend(t: seq<Event>, a: seq<Event>, b: seq<Event>)
    ensures t + a + b == t + (a + b)
  {
  }

  /** Appending to a trace leaves its prefixes as they were. */
  lemma {:induction false} PrefixKept(t: seq<Event>, a: seq<Event>, k: nat)
    requires k <= |t|
    ensures (t + a)[..k] == t[..k]
  {
  }

  /** What follows a trace in a concatenation is the appended piece. */
  lemma {:induction false} SuffixAfter(t: seq<Event>, a: seq<Event>)
    ensures (t + a)[|t|..] == a
  {
  }

  /** Two events appended to a trace come right after it, in order. */
  lemma {:induction false} AppendTwo(m: seq<Event>, a: Event, b: Event)
    ensures |m + [a] + [b]| == |m| + 2
    ensures (m + [a] + [b])[..|m|] == m
    ensures (m + [a] + [b])[|m|] == a && (m + [a] + [b])[|m| + 1] == b
  {
    assert (m + [a] + [b])[..|m|] == m;
  }

  /** Two records written after a trace add their names and nothing else. */
  lemma {:induction false} TwoRecordsAfter(m: seq<Event>, a: Event, b: Event)
    requires a.Save? && b.Save?
    ensures ReadsOf(m + [a] + [b]) == ReadsOf(m) && Triggers(m + [a] + [b]) == Triggers(m)
    ensures SavedNames(m + [a] + [b]) == SavedNames(m) + [FileName(a.stem, a.kind), FileName(b.stem, b.kind)]
  {
    SingleObserved(a);
    SingleObserved(b);
    QuietAfter(m, [a]);
    QuietAfter(m + [a], [b]);
    assert SavedNames(m) + [FileName(a.stem, a.kind)] + [FileName(b.stem, b.kind)]
      == SavedNames(m) + [FileName(a.stem, a.kind), FileName(b.stem, b.kind)];
  }

  /** A record written after a trace, then a piece that shows nothing: the trace keeps
      its place and its observers, and only the record's name is added. */
  lemma {:induction false} RecordThenQuiet(m: seq<Event>, a: Event, tail: seq<Event>)
    requires a.Save?
    requires ReadsOf(tail) == [] && Triggers(tail) == 0 && SavedNames(tail) == []
    ensures |m + [a] + tail| == |m| + 1 + |tail|
    ensures (m + [a] + tail)[..|m|] == m && (m + [a] + tail)[|m|] == a
    ensures (m + [a] + tail)[..|m| + 1] == m + [a] && (m + [a] + tail)[|m| + 1..] == tail
    ensures ReadsOf(m + [a] + tail) == ReadsOf(m) && Triggers(m + [a] + tail) == Triggers(m)
    ensures SavedNames(m + [a] + tail) == SavedNames(m) + [FileName(a.stem, a.kind)]
  {
    SingleObserved(a);
    QuietAfter(m, [a]);
    QuietAfter(m + [a], tail);
    PrefixKept(m + [a], tail, |m|);
    PrefixKept(m + [a], tail, |m| + 1);
    SuffixAfter(m + [a], tail);
    assert (m + [a])[..|m|] == m;
    assert (m + [a])[..|m| + 1] == m + [a];
  }

  /** Singletons appended one after the other make the list of their elements. */
  lemma {:induction false} ListOfThree(a: string, b: string, c: string)
    ensures [a] + [b] == [a, b]
    ensures [a] + [b] + [c] == [a, b, c]
    ensures [a] + [b, c] == [a, b, c]
  {
  }

  /** A prefix of a prefix is a prefix. */
  lemma {:induction false} PrefixOfPrefix(e: seq<Event>, j: nat, k: nat)
    requires j <= k <= |e|
    ensures e[..k][..j] == e[..j]
  {
  }

  /** A piece without reads or triggers adds only its files to what is observed. */
  lemma {:induction false} QuietAfter(s: seq<Event>, t: seq<Event>)
    requires ReadsOf(t) == [] && Triggers(t) == 0
    ensures ReadsOf(s + t) == ReadsOf(s) && Triggers(s + t) == Triggers(s)
    ensures SavedNames(s + t) == SavedNames(s) + SavedNames(t)
  {
    ObserversAppend(s, t);
    assert ReadsOf(s) + [] == ReadsOf(s);
  }

  /** Nothing observed before a piece leaves only what the piece shows. */
  lemma {:induction false} QuietBefore(s: seq<Event>, t: seq<Event>)
    requires ReadsOf(s) == [] && Triggers(s) == 0 && SavedNames(s) == []
    ensures ReadsOf(s + t) == ReadsOf(t) && Triggers(s + t) == Triggers(t) && SavedNames(s + t) == SavedNames(t)
  {
    ObserversAppend(s, t);
    assert [] + ReadsOf(t) == ReadsOf(t) && [] + SavedNames(t) == SavedNames(t);
  }

  /** The observers of a single event. */
  lemma {:induction false} SingleObserved(e: Event)
    ensures ReadsOf([e]) == if e.Read? then [e.reply] else []
    ensures SavedNames([e]) == if e.Save? then [FileName(e.stem, e.kind)] else []
    ensures Triggers([e]) == if e == Trigger then 1 else 0
  {
    assert [e][1..] == [];
  }

  /** The three observers distribute over a concatenation of traces. */
  lemma {:induction false} ObserversAppend(s: seq<Event>, t: seq<Event>)
    ensures ReadsOf(s + t) == ReadsOf(s) + ReadsOf(t)
    ensures SavedNames(s + t) == SavedNames(s) + SavedNames(t)
    ensures Triggers(s + t) == Triggers(s) + Triggers(t)
  {
    ReadsAppend(s, t);
    NamesAppend(s, t);
    TriggersAppend(s, t);
  }

  lemma {:induction false} ReadsAppend(s: seq<Event>, t: seq<Event>)
    ensures ReadsOf(s + t) == ReadsOf(s) + ReadsOf(t)
    decreases |s|
  {
    if |s| == 0 {
      assert s + t == t;
    } else {
      var h := if s[0].Read? then [s[0].reply] else [];
      assert (s + t)[0] == s[0];
      assert (s + t)[1..] == s[1..] + t;
      ReadsAppend(s[1..], t);
      calc {
        ReadsOf(s + t);
        h + ReadsOf(s[1..] + t);
        h + (ReadsOf(s[1..]) + ReadsOf(t));
        (h + ReadsOf(s[1..])) + ReadsOf(t);
      }
    }
  }

  lemma {:induction false} NamesAppend(s: seq<Event>, t: seq<Event>)
    ensures SavedNames(s + t) == SavedNames(s) + SavedNames(t)
    decreases |s|
  {
    if |s| == 0 {
      assert s + t == t;
    } else {
      var h := if s[0].Save? then [FileName(s[0].stem, s[0].kind)] else [];
      assert (s + t)[0] == s[0];
      assert (s + t)[1..] == s[1..] + t;
      NamesAppend(s[1..], t);
      calc {
        SavedNames(s + t);
        h + SavedNames(s[1..] + t);
        h + (SavedNames(s[1..]) + SavedNames(t));
        (h + SavedNames(s[1..])) + SavedNames(t);
      }
    }
  }

  lemma {:induction false} TriggersAppend(s: seq<Event>, t: seq<Event>)
    ensures Triggers(s + t) == Triggers(s) + Triggers(t)
    decreases |s|
  {
    if |s| == 0 {
      assert s + t == t;
    } else {
      assert (s + t)[1..] == s[1..] + t;
      TriggersAppend(s[1..], t);
    }
  }
}
