/** The bounded history that the probe and the key generator both keep: append,
    then cut to the newest entries. */
module History {
  const MAX_HISTORY := 20

  function Recorded<T>(history: seq<T>, entry: T): seq<T> {
    var longer := history + [entry];
    if |longer| > MAX_HISTORY then longer[|longer| - MAX_HISTORY..] else longer
  }

  // The last entries of a full log.
  function Window<T>(log: seq<T>): (r: seq<T>)
    ensures |r| == if |log| < 20 then |log| else 20
    ensures forall i :: 0 <= i < |r| ==> r[i] == log[|log| - |r| + i]
  {
    if |log| > MAX_HISTORY then log[|log| - MAX_HISTORY..] else log
  }

  lemma RecordedIsWindow<T>(log: seq<T>, entry: T)
    ensures Recorded(Window(log), entry) == Window(log + [entry])
  {
    if |log| >= MAX_HISTORY {
      var n := |log| - MAX_HISTORY;
      assert (log[n..] + [entry])[1..] == (log + [entry])[n + 1..];
    }
  }
}
