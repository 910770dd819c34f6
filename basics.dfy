/** Value types shared by every stage of the stability-measurement scripts. */
module Basics {

  datatype Option<+T> = None | Some(value: T)

  datatype Result<+T, +E> = Ok(value: T) | Err(error: E)

  /** The Python exceptions that abort a measurement script in the numeric stages.
      Every one of them ends the whole run: no stage catches anything. */
  datatype Failure =
    | StatisticsError          // statistics.mean over an empty burst
    | ValueError(token: string) // float() of a token that is not a number
    | ZeroDivisionError        // dividing by a burst mean equal to zero

  /** The resolved settings of one run (the `[Config]` section of settings.ini).
      `samples` is N, `gate` is the gate-size text forwarded verbatim to the counter,
      `rep` and `wait` are used by the sweep script only. */
  datatype Config = Config(samples: nat, gate: string, observation: string, rep: nat, wait: nat)

  /** Sum of a sequence of reals. The reals are exact, so the order of the additions
      does not matter; the first element is split off. */
  function Sum(s: seq<real>): real
  {
    if |s| == 0 then 0.0 else s[0] + Sum(s[1..])
  }

  lemma {:induction false} SumAppend(s: seq<real>, t: seq<real>)
    ensures Sum(s + t) == Sum(s) + Sum(t)
    decreases |s|
  {
    if |s| == 0 {
      assert s + t == t;
    } else {
      assert (s + t)[1..] == s[1..] + t;
      SumAppend(s[1..], t);
    }
  }
}
