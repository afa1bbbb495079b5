/** The per-sign duration gate every recogniser applies first: the time
    between the first and the last touch must not exceed a limit that
    depends on the sign's label. */
module Recognition {

  /** Labels whose signs are drawn with several strokes and get 4 seconds. */
  const FourSecondSigns: set<string> := {"LL", "\U{D1}", "RR", "W"}

  /** The time limit, in seconds, for the sign called `sign`. */
  function DurationLimit(sign: string): (limit: real)
    ensures sign in FourSecondSigns <==> limit == 4.0
    ensures sign == "Y" <==> limit == 1.0
    ensures sign == "Z" <==> limit == 3.0
    ensures sign !in FourSecondSigns && sign != "Y" && sign != "Z" <==> limit == 2.0
  {
    if sign == "LL" then 4.0
    else if sign == "\U{D1}" then 4.0
    else if sign == "RR" then 4.0
    else if sign == "W" then 4.0
    else if sign == "Y" then 1.0
    else if sign == "Z" then 3.0
    else 2.0
  }

  /** `timestamp_duration_valid`: whether the touches from the first to the
      last timestamp fit in the sign's time limit (the bound is inclusive).
      Indexing the first and last timestamp needs a non-empty list. */
  function TimestampDurationValid(sign: string, timestamps: seq<real>): (valid: bool)
    requires |timestamps| > 0
    ensures valid <==> timestamps[|timestamps| - 1] - timestamps[0] <= DurationLimit(sign)
    ensures |timestamps| == 1 ==> valid
    ensures timestamps[|timestamps| - 1] <= timestamps[0] ==> valid
    ensures valid ==> timestamps[|timestamps| - 1] - timestamps[0] <= 4.0
    ensures timestamps[|timestamps| - 1] - timestamps[0] <= 1.0 ==> valid
  {
    timestamps[|timestamps| - 1] - timestamps[0] <= DurationLimit(sign)
  }

  /** Only the first and the last timestamp are read: lists that agree on
      those get the same answer, whatever lies between. */
  lemma OnlyEndpointsMatter(sign: string, ts1: seq<real>, ts2: seq<real>)
    requires |ts1| > 0 && |ts2| > 0
    requires ts1[0] == ts2[0] && ts1[|ts1| - 1] == ts2[|ts2| - 1]
    ensures TimestampDurationValid(sign, ts1) == TimestampDurationValid(sign, ts2)
  {
  }

  /** A longer-lasting sign never passes when a shorter one of the same
      label fails: the gate is monotone in the duration. */
  lemma LongerFailsIfShorterFails(sign: string, ts1: seq<real>, ts2: seq<real>)
    requires |ts1| > 0 && |ts2| > 0
    requires ts1[|ts1| - 1] - ts1[0] <= ts2[|ts2| - 1] - ts2[0]
    ensures TimestampDurationValid(sign, ts2) ==> TimestampDurationValid(sign, ts1)
  {
  }

  /** The labels other recognisers use: 'CH', 'B' and 'J' get the default
      2 seconds, 'LL' and 'W' get 4 seconds. */
  lemma LabelExamples()
    ensures DurationLimit("CH") == 2.0 && DurationLimit("B") == 2.0 && DurationLimit("J") == 2.0
    ensures DurationLimit("LL") == 4.0 && DurationLimit("W") == 4.0
    ensures DurationLimit("\U{D1}") == 4.0 && DurationLimit("RR") == 4.0
    ensures DurationLimit("Y") == 1.0 && DurationLimit("Z") == 3.0
  {
  }

  /** A sign 'B' drawn over exactly 2 seconds passes, over 4 seconds fails. */
  lemma DurationExamples()
    ensures TimestampDurationValid("B", [1.0, 2.0, 3.0])
    ensures !TimestampDurationValid("B", [1.0, 5.0])
    ensures TimestampDurationValid("W", [1.0, 5.0])
    ensures !TimestampDurationValid("Y", [0.0, 0.5, 1.5])
  {
  }
}
