/** The text files a burst leaves behind. Every file is a three-line header followed by
    one line per value; the names of a burst's files share a stem and differ in their
    suffix only. A file is modelled as the sequence of its lines. */
module Records {
  import opened Text

  /** The three records of a burst: the raw counter replies in Hz, the relative values,
      and the relative values with the drift removed. */
  datatype Kind = Absolute | Relative | Detrended

  const TitlePrefix: string := "#Medição realizada em "

  /** First header line: the timestamp with every '_' shown as a space. */
  function TitleLine(ts: string): string
  {
    TitlePrefix + ReplaceChar(ts, '_', ' ') + "."
  }

  function KindLine(k: Kind): string
  {
    match k
    case Absolute => "#Valores absolutos, em Hz."
    case Relative => "#Valores relativos, em ppm."
    case Detrended => "#Valores relativos, em ppm, com drift compensado."
  }

  /** The observation line: the absolute record ends with the observation text itself,
      the two relative records add a period after it. */
  function ObservationLine(k: Kind, obs: string): string
  {
    if k == Absolute then "#Observações: " + obs else "#Observações: " + obs + "."
  }

  function Header(ts: string, k: Kind, obs: string): seq<string>
  {
    [TitleLine(ts), KindLine(k), ObservationLine(k, obs)]
  }

  /** One line per row, each with its line ends removed. */
  function Body(rows: seq<string>): seq<string>
  {
    seq(|rows|, i requires 0 <= i < |rows| => RemoveChar(rows[i], '\n'))
  }

  /** The lines of one record file. */
  function Record(ts: string, k: Kind, obs: string, rows: seq<string>): seq<string>
  {
    Header(ts, k, obs) + Body(rows)
  }

  function Suffix(k: Kind): string
  {
    match k
    case Absolute => ".dat"
    case Relative => "_ppm.dat"
    case Detrended => "_ppm_nodrift.dat"
  }

  function FileName(stem: string, k: Kind): string
  {
    stem + Suffix(k)
  }

  /** The stem of the sweep's file names: the timestamp, the applied voltage and the
      applied frequency, as in "<ts>_1V_1000Hz". */
  function SweepStem(ts: string, v: int, f: int): string
  {
    ts + "_" + IntToString(v) + "V_" + IntToString(f) + "Hz"
  }

  /** A record is its three header lines followed by exactly one line per row, in row
      order; each line is its row without line ends and with every other character kept
      (in order: see `ReplyLine`). */
  lemma {:induction false} RecordShape(ts: string, k: Kind, obs: string, rows: seq<string>)
    ensures |Record(ts, k, obs, rows)| == 3 + |rows|
    ensures Record(ts, k, obs, rows)[..3] == [TitleLine(ts), KindLine(k), ObservationLine(k, obs)]
    ensures forall i :: 0 <= i < |rows| ==>
      && '\n' !in Record(ts, k, obs, rows)[3 + i]
      && multiset(Record(ts, k, obs, rows)[3 + i]) == multiset(rows[i])[('\n') := 0]
      && ('\n' !in rows[i] ==> Record(ts, k, obs, rows)[3 + i] == rows[i])
  {
    var r := Record(ts, k, obs, rows);
    forall i | 0 <= i < |rows|
      ensures r[3 + i] == RemoveChar(rows[i], '\n')
    {
    }
  }

  /** The value line of a reply is the reply itself, characters in order, once its one
      trailing line end (if any) is dropped. */
  lemma {:induction false} ReplyLine(ts: string, k: Kind, obs: string, rows: seq<string>, i: nat, u: string)
    requires i < |rows| && '\n' !in u
    requires rows[i] == u + "\n" || rows[i] == u
    ensures Record(ts, k, obs, rows)[3 + i] == u
  {
    assert Record(ts, k, obs, rows)[3 + i] == RemoveChar(rows[i], '\n');
    if rows[i] != u {
      RemoveLineEnd(u);
    }
  }

  /** The title shows the timestamp character for character, with '_' replaced by a
      space, so no underscore is left in it. */
  lemma {:induction false} TitleShowsTimestamp(ts: string)
    ensures |TitleLine(ts)| == |TitlePrefix| + |ts| + 1
    ensures forall i :: 0 <= i < |ts| ==>
      TitleLine(ts)[|TitlePrefix| + i] == if ts[i] == '_' then ' ' else ts[i]
    ensures '_' !in TitleLine(ts)
  {
    var t := TitleLine(ts);
    var shown := ReplaceChar(ts, '_', ' ');
    forall i | 0 <= i < |ts|
      ensures t[|TitlePrefix| + i] == shown[i]
    {
    }
    forall j | 0 <= j < |t|
      ensures t[j] != '_'
    {
      if |TitlePrefix| <= j < |TitlePrefix| + |ts| {
        assert t[j] == shown[j - |TitlePrefix|];
      }
    }
  }

  /** The three files of a burst never overwrite one another: their names coincide only
      for the same record kind. */
  lemma {:induction false} FileNamesDistinct(stem: string, k1: Kind, k2: Kind)
    ensures FileName(stem, k1) == FileName(stem, k2) <==> k1 == k2
  {
    if k1 != k2 {
      assert |FileName(stem, k1)| != |FileName(stem, k2)|;
    }
  }

  /** str() of an int determines the int. */
  lemma {:induction false} IntToStringInjective(i: int, j: int)
    requires IntToString(i) == IntToString(j)
    ensures i == j
  {
    ParseIntToString(i);
    ParseIntToString(j);
  }

  /** Two sweep points that share a timestamp still write to different files: the stem
      determines the voltage and the frequency. */
  lemma {:induction false} SweepStemInjective(ts: string, v: int, f: int, v': int, f': int)
    requires SweepStem(ts, v, f) == SweepStem(ts, v', f')
    ensures v == v' && f == f'
  {
    StemTail(ts, v, f);
    StemTail(ts, v', f');
    SplitAtV(IntToString(v), IntToString(f), IntToString(v'), IntToString(f'));
    IntToStringInjective(v, v');
    IntToStringInjective(f, f');
  }

  lemma {:induction false} StemTail(ts: string, v: int, f: int)
    ensures SweepStem(ts, v, f)[|ts| + 1..] == IntToString(v) + "V_" + IntToString(f) + "Hz"
  {
    var p, s := ts + "_", IntToString(v) + "V_" + IntToString(f) + "Hz";
    assert SweepStem(ts, v, f) == p + s;
  }

  /** `a + "V_" + b + "Hz"` splits uniquely when `a` holds no 'V'. */
  lemma {:induction false} SplitAtV(a: string, b: string, a': string, b': string)
    requires forall i :: 0 < i < |a| ==> IsDigit(a[i])
    requires forall i :: 0 < i < |a'| ==> IsDigit(a'[i])
    requires |a| > 0 && |a'| > 0 && a[0] != 'V' && a'[0] != 'V'
    requires a + "V_" + b + "Hz" == a' + "V_" + b' + "Hz"
    ensures a == a' && b == b'
  {
    var s := a + "V_" + b + "Hz";
    IndexOfFirst(s, 'V', |a|);
    IndexOfFirst(s, 'V', |a'|);
    assert a == s[..|a|] && a' == s[..|a'|];
    assert b == s[|a| + 2..|s| - 2] && b' == s[|a'| + 2..|s| - 2];
  }

  lemma {:induction false} IndexOfFirst(s: string, c: char, k: nat)
    requires k < |s| && s[k] == c
    requires forall i :: 0 <= i < k ==> s[i] != c
    ensures IndexOf(s, c) == k
    decreases k
  {
    if k > 0 {
      IndexOfFirst(s[1..], c, k - 1);
    }
  }
}
