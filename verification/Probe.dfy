/** The debugging probe: it can be told to fail its next n requests, or all of
    them, and remembers its last answers. */
module Probe {
  import opened History

  datatype Answer = Healthy | FailedWithLeft(left: int) | FailedForGood

  function Code(a: Answer): int {
    if a.Healthy? then 200 else 500
  }

  datatype Entry = Entry(id: int, code: int)

  datatype State = State(failNext: int, lastID: int, history: seq<Entry>)

  const INIT := State(0, 0, [])

  // ---- One request, one reconfiguration ----

  function AnswerTo(failNext: int): Answer {
    if failNext > 0 then FailedWithLeft(failNext - 1)
    else if failNext < 0 then FailedForGood
    else Healthy
  }

  function Handled(s: State): State {
    State(if s.failNext > 0 then s.failNext - 1 else s.failNext,
          s.lastID + 1,
          Recorded(s.history, Entry(s.lastID + 1, Code(AnswerTo(s.failNext)))))
  }

  class Probe {
    var failNext: int
    var lastID: int
    var history: seq<Entry>

    constructor ()
      ensures Value() == INIT
    {
      failNext, lastID, history := 0, 0, [];
    }

    ghost function Value(): State
      reads this
    {
      State(failNext, lastID, history)
    }

    method SetConfig(n: int)
      modifies this
      ensures Value() == old(Value()).(failNext := n)
    {
      failNext := n;
    }

    method Handle() returns (a: Answer)
      modifies this
      ensures Value() == Handled(old(Value())) && a == AnswerTo(old(failNext))
      ensures a == if old(failNext) > 0 then FailedWithLeft(old(failNext) - 1)
                   else if old(failNext) < 0 then FailedForGood else Healthy
      ensures failNext == (if old(failNext) > 0 then old(failNext) - 1 else old(failNext)) && lastID == old(lastID) + 1
      ensures history != [] && history[|history| - 1] == Entry(lastID, if old(failNext) == 0 then 200 else 500)
    {
      a := Healthy;
      if failNext > 0 {
        failNext := failNext - 1;
        a := FailedWithLeft(failNext);
      } else if failNext < 0 {
        a := FailedForGood;
      }
      RecordRequest(Code(a));
    }

    method RecordRequest(code: int)
      modifies this`lastID, this`history
      ensures lastID == old(lastID) + 1
      ensures history == Recorded(old(history), Entry(lastID, code))
      ensures |old(history)| < 20 ==> history == old(history) + [Entry(lastID, code)]
      ensures |old(history)| == 20 ==> history == old(history)[1..] + [Entry(lastID, code)]
    {
      lastID := lastID + 1;
      history := history + [Entry(lastID, code)];
      if |history| > MAX_HISTORY {
        history := history[|history| - MAX_HISTORY..];
      }
    }

    // The status shows the newest answer first.
    method LockedGet() returns (left: int, shown: seq<Entry>)
      ensures left == failNext && |shown| == |history|
      ensures forall i :: 0 <= i < |history| ==> shown[|history| - 1 - i] == history[i]
    {
      var l := |history|;
      var rows := new Entry[l];
      var i := 0;
      while i < l
        invariant 0 <= i <= l && rows.Length == l == |history|
        invariant forall j :: 0 <= j < i ==> rows[l - 1 - j] == history[j]
        modifies rows
      {
        rows[l - 1 - i] := history[i];
        i := i + 1;
      }
      return failNext, rows[..];
    }
  }

  // ---- Whole runs ----

  datatype Event = Configure(n: int) | Request

  function Acted(s: State, e: Event): State {
    match e
    case Configure(n) => s.(failNext := n)
    case Request => Handled(s)
  }

  function After(events: seq<Event>): State {
    if |events| == 0 then INIT else Acted(After(events[..|events| - 1]), events[|events| - 1])
  }

  // The answers given so far, oldest first.
  function Answers(events: seq<Event>): seq<Answer> {
    if |events| == 0 then []
    else
      var front := events[..|events| - 1];
      Answers(front) + if events[|events| - 1].Request? then [AnswerTo(After(front).failNext)] else []
  }

  // The last configuration, and the requests since.
  function LastConfig(events: seq<Event>): int {
    if |events| == 0 then 0
    else if events[|events| - 1].Configure? then events[|events| - 1].n
    else LastConfig(events[..|events| - 1])
  }

  function RequestsSince(events: seq<Event>): nat {
    if |events| == 0 || events[|events| - 1].Configure? then 0
    else RequestsSince(events[..|events| - 1]) + 1
  }

  // The answer due to the k-th request after a configuration with n.
  function Due(n: int, k: nat): Answer {
    if n < 0 then FailedForGood
    else if k < n then FailedWithLeft(n - k - 1)
    else Healthy
  }

  // After any run, the next request gets what the last configuration says: its
  // first n requests fail, counting down, and then all succeed; with a negative
  // n all fail.
  lemma {:induction false} AnswersFollowLastConfig(events: seq<Event>)
    ensures AnswerTo(After(events).failNext) == Due(LastConfig(events), RequestsSince(events))
    ensures var n, k := LastConfig(events), RequestsSince(events);
            After(events).failNext == if n <= 0 then n else if k < n then n - k else 0
  {
    if |events| > 0 {
      AnswersFollowLastConfig(events[..|events| - 1]);
    }
  }

  // Exactly n failures: after Configure(n) and m requests, the failures among
  // the answers to those requests.
  function Requests(m: nat): seq<Event> {
    seq(m, _ => Request)
  }

  function Failures(answers: seq<Answer>): nat {
    if |answers| == 0 then 0
    else Failures(answers[..|answers| - 1]) + if answers[|answers| - 1].Healthy? then 0 else 1
  }

  lemma OneMoreRequest(run: seq<Event>)
    ensures var longer := run + [Request];
            && LastConfig(longer) == LastConfig(run) && RequestsSince(longer) == RequestsSince(run) + 1
            && Failures(Answers(longer)) ==
                 Failures(Answers(run)) + if Due(LastConfig(run), RequestsSince(run)).Healthy? then 0 else 1
  {
    AnswersFollowLastConfig(run);
    var longer := run + [Request];
    assert longer[..|longer| - 1] == run;
    assert Answers(longer) == Answers(run) + [AnswerTo(After(run).failNext)];
  }

  lemma Reconfigured(before: seq<Event>, n: int)
    ensures var run := before + [Configure(n)];
            LastConfig(run) == n && RequestsSince(run) == 0 && Answers(run) == Answers(before)
  {
    var run := before + [Configure(n)];
    assert run[..|before|] == before;
  }

  lemma {:induction false} ExactlyNFailures(before: seq<Event>, n: int, m: nat)
    ensures var run := before + [Configure(n)] + Requests(m);
            && LastConfig(run) == n && RequestsSince(run) == m
            && Failures(Answers(run)) ==
                 Failures(Answers(before)) + if n < 0 || m <= n then m else n
  {
    hide Answers, Failures, LastConfig, RequestsSince;
    var start := before + [Configure(n)];
    if m == 0 {
      Reconfigured(before, n);
      assert start + Requests(0) == start;
    } else {
      ExactlyNFailures(before, n, m - 1);
      OneMoreRequest(start + Requests(m - 1));
      assert start + Requests(m) == start + Requests(m - 1) + [Request];
    }
  }

  // ---- The history ----

  function Log(answers: seq<Answer>): (r: seq<Entry>)
    ensures |r| == |answers|
    ensures forall i :: 0 <= i < |r| ==> r[i] == Entry(i + 1, if answers[i].Healthy? then 200 else 500)
  {
    seq(|answers|, i requires 0 <= i < |answers| => Entry(i + 1, Code(answers[i])))
  }

  lemma LogSnoc(answers: seq<Answer>, a: Answer)
    ensures Log(answers + [a]) == Log(answers) + [Entry(|answers| + 1, Code(a))]
  {
  }

  // After any run, the history is the last entries of the full log of answers,
  // numbered from one without a gap.
  lemma {:induction false} HistoryIsWindow(events: seq<Event>)
    ensures After(events).lastID == |Answers(events)|
    ensures After(events).history == Window(Log(Answers(events)))
  {
    if |events| > 0 {
      var front := events[..|events| - 1];
      HistoryIsWindow(front);
      HandledLog(After(front), Answers(front));
      hide Log, Window, Handled, AnswerTo;
    }
  }

  lemma HandledLog(s: State, answers: seq<Answer>)
    requires s.lastID == |answers| && s.history == Window(Log(answers))
    ensures Handled(s).lastID == |answers| + 1
    ensures Handled(s).history == Window(Log(answers + [AnswerTo(s.failNext)]))
  {
    RecordedIsWindow(Log(answers), Entry(s.lastID + 1, Code(AnswerTo(s.failNext))));
    LogSnoc(answers, AnswerTo(s.failNext));
    hide Log, Window, Recorded, AnswerTo, Code;
  }

  // A probe object driven through a run answers as the run says.
  method Drive(p: Probe, events: seq<Event>) returns (answers: seq<Answer>)
    requires p.Value() == INIT
    modifies p
    ensures answers == Answers(events) && p.Value() == After(events)
  {
    answers := [];
    var i := 0;
    while i < |events|
      invariant 0 <= i <= |events|
      invariant answers == Answers(events[..i]) && p.Value() == After(events[..i])
    {
      assert events[..i + 1][..i] == events[..i];
      match events[i] {
        case Configure(n) => p.SetConfig(n);
        case Request =>
          var a := p.Handle();
          answers := answers + [a];
      }
      i := i + 1;
    }
    assert events[..i] == events;
  }
}
