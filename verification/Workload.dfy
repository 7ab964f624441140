/** The key generator's own workload: make keys until cancelled, until time is up,
    or until enough are made. */
module Workload {
  datatype Config = Config(enable: bool, numToGen: int, timeToRun: int, memQServer: string, memQQueue: string,
                           exitOnComplete: bool, exitCode: int)

  // What is ready when the worker looks: its cancelled context, its expired
  // timer; when both are, `pickContext` says which one the select takes.
  datatype Poll = Poll(cancelled: bool, expired: bool, pickContext: bool)

  datatype Signal = NoSignal | ContextDone | TimeUp

  datatype End = Running | Cancelled | TimedOut | Completed

  datatype Progress = Progress(generated: int, end: End)

  // Without a time limit there is no timer.
  function Selected(c: Config, poll: Poll): Signal {
    var expired := poll.expired && c.timeToRun > 0;
    if poll.cancelled && (poll.pickContext || !expired) then ContextDone
    else if expired then TimeUp
    else NoSignal
  }

  // Neither is ready;
  predicate Silent(c: Config, poll: Poll) {
    !poll.cancelled && !(c.timeToRun > 0 && poll.expired)
  }

  // the timer is, and is what the select takes.
  predicate TimerWins(c: Config, poll: Poll) {
    c.timeToRun > 0 && poll.expired && !(poll.cancelled && poll.pickContext)
  }

  function Checked(c: Config, w: Progress, poll: Poll): End {
    match Selected(c, poll)
    case ContextDone => Cancelled
    case TimeUp => TimedOut
    case NoSignal => if c.numToGen > 0 && w.generated >= c.numToGen then Completed else Running
  }

  function Next(c: Config, w: Progress, poll: Poll): Progress {
    if !w.end.Running? then w
    else
      var end := Checked(c, w, poll);
      Progress(if end.Running? then w.generated + 1 else w.generated, end)
  }

  function Work(c: Config, polls: seq<Poll>): Progress {
    if |polls| == 0 then Progress(0, Running)
    else Next(c, Work(c, polls[..|polls| - 1]), polls[|polls| - 1])
  }

  // The worker ends the process when it is not cancelled and told to.
  predicate Exits(c: Config, end: End) {
    (end.TimedOut? || end.Completed?) && c.exitOnComplete
  }

  class Worker {
    const c: Config
    var generated: int

    constructor (c: Config)
      ensures this.c == c && generated == 0
    {
      this.c := c;
      generated := 0;
    }

    method IsDone(poll: Poll) returns (end: End)
      ensures end == Checked(c, Progress(generated, Running), poll)
      ensures end.TimedOut? <==> TimerWins(c, poll)
      ensures end.Cancelled? <==> !TimerWins(c, poll) && !Silent(c, poll)
      ensures end.Completed? <==> Silent(c, poll) && c.numToGen > 0 && generated >= c.numToGen
    {
      var expired := c.timeToRun > 0 && poll.expired;
      if poll.cancelled && (poll.pickContext || !expired) {
        return Cancelled;
      } else if expired {
        return TimedOut;
      }
      if c.numToGen > 0 && generated >= c.numToGen {
        return Completed;
      }
      return Running;
    }

    // Against everything it will see, up to its end.
    method StartWork(polls: seq<Poll>) returns (end: End, exits: bool)
      requires generated == 0
      modifies this
      ensures Progress(generated, end) == Work(c, polls) && exits == Exits(c, end)
      ensures exits <==> EndsProcess(c, polls)
    {
      end := Running;
      var i := 0;
      while i < |polls| && end.Running?
        invariant 0 <= i <= |polls| && Progress(generated, end) == Work(c, polls[..i])
        decreases |polls| - i
      {
        assert polls[..i + 1][..i] == polls[..i];
        end := IsDone(polls[i]);
        if end.Running? {
          generated := generated + 1;
        }
        i := i + 1;
      }
      EndedStaysEnded(c, polls, i);
      ExitsIff(c, polls);
      exits := (end.TimedOut? || end.Completed?) && c.exitOnComplete;
    }
  }

  lemma {:induction false} EndedStaysEnded(c: Config, polls: seq<Poll>, n: nat)
    requires n <= |polls|
    requires n < |polls| ==> !Work(c, polls[..n]).end.Running?
    ensures Work(c, polls) == Work(c, polls[..n])
  {
    if n < |polls| {
      var front := polls[..|polls| - 1];
      assert front[..n] == polls[..n];
      if n < |front| {
        EndedStaysEnded(c, front, n);
      } else {
        assert front[..n] == front;
      }
    } else {
      assert polls[..n] == polls;
    }
  }

  // The first poll with a signal, if any.
  function FirstSignal(c: Config, polls: seq<Poll>): (r: nat)
    ensures r <= |polls|
    ensures forall j :: 0 <= j < r ==> Silent(c, polls[j])
    ensures r < |polls| ==> !Silent(c, polls[r])
  {
    if |polls| == 0 then 0
    else
      var r := FirstSignal(c, polls[..|polls| - 1]);
      if r < |polls| - 1 || !Silent(c, polls[r]) then r else |polls|
  }

  // The whole truth about a run: one item per look, until a signal or until
  // there are n; a signal seen together with the n-th item wins.
  lemma {:induction false} WorkExactly(c: Config, polls: seq<Poll>)
    ensures var r, n := FirstSignal(c, polls), c.numToGen;
            Work(c, polls) ==
            if n > 0 && n < r then Progress(n, Completed)
            else if r == |polls| then Progress(r, Running)
            else Progress(r, if TimerWins(c, polls[r]) then TimedOut else Cancelled)
  {
    if |polls| > 0 {
      WorkExactly(c, polls[..|polls| - 1]);
    }
  }

  // A run ends the process if it is told to, and either the first signal is the
  // timer's, or there is none in the looks it takes to make as many items as asked
  // for and one more.
  ghost predicate EndsProcess(c: Config, polls: seq<Poll>) {
    c.exitOnComplete && (TimesOut(c, polls) || (0 < c.numToGen < |polls| && SilentFor(c, polls, c.numToGen + 1)))
  }

  ghost predicate TimesOut(c: Config, polls: seq<Poll>) {
    exists r :: 0 <= r < |polls| && TimerWins(c, polls[r]) && SilentFor(c, polls, r)
  }

  // There is no signal in the first n looks.
  predicate SilentFor(c: Config, polls: seq<Poll>, n: nat)
    requires n <= |polls|
  {
    forall j :: 0 <= j < n ==> Silent(c, polls[j])
  }

  lemma ExitsIff(c: Config, polls: seq<Poll>)
    ensures Exits(c, Work(c, polls).end) <==> EndsProcess(c, polls)
  {
    WorkExactly(c, polls);
    var r := FirstSignal(c, polls);
    if r < |polls| {
      assert TimerWins(c, polls[r]) ==> !Silent(c, polls[r]);
    }
    hide Work, Selected;
  }

  // With a positive limit the worker never makes more than that many items, and
  // has made exactly that many if it ends neither cancelled nor timed out.  With
  // no limits at all, only cancellation ends it.
  lemma LimitsHold(c: Config, polls: seq<Poll>)
    ensures var w := Work(c, polls);
            && (c.numToGen > 0 ==> w.generated <= c.numToGen)
            && (w.end.Completed? ==> c.numToGen > 0 && w.generated == c.numToGen)
            && (c.numToGen <= 0 && c.timeToRun <= 0 ==> w.end.Running? || w.end.Cancelled?)
            && (w.end.TimedOut? ==> c.timeToRun > 0)
  {
    WorkExactly(c, polls);
  }
}
