/** Any number of worker processes emptying one queue together.  Each worker
    repeats: check for cancellation, dequeue, work on what it got; each dequeue
    takes effect at one instant, as the broker guarantees. */
module DrainProtocol {
  import opened MemQ
  import opened MemQWorker

  datatype At = Checking | Asking | Busy(m: Message) | Gone

  // A process, everything the queue has answered it, and the items it has done.
  datatype Process = Process(at: At, turns: seq<Turn>, completed: seq<Message>)

  // `lost` are messages the broker handed out in replies that never arrived.
  datatype State = State(q: QueueState, procs: seq<Process>, lost: seq<Message>)

  // A Move is a process's next step.  A Fail is a dequeue call that goes wrong,
  // before the broker acted on it or, when `tooLate`, after.
  datatype Step = Move(p: nat) | Fail(p: nat, tooLate: bool)

  predicate Enabled(s: State, e: Step) {
    && e.p < |s.procs|
    && (e.Move? ==> !s.procs[e.p].at.Gone?)
    && (e.Fail? ==> s.procs[e.p].at.Asking?)
  }

  function With(s: State, p: nat, proc: Process): State
    requires p < |s.procs|
  {
    s.(procs := s.procs[p := proc])
  }

  // What the client hears of a dequeue call that goes through.
  function Heard(r: Result): Reply
    requires r.Received? || r == Failed(EmptyQueue)
  {
    if r.Received? then Item(r.m) else Empty
  }

  // Every process is configured to exit when the queue is empty.
  function Act(s: State, e: Step): State
    requires Enabled(s, e)
  {
    var proc := s.procs[e.p];
    var (q', r) := OnQueue(s.q, e.p, Get(""));
    match e
    case Fail(p, tooLate) =>
      var next := With(s, p, Process(Checking, proc.turns + [Asked(Trouble)], proc.completed));
      if tooLate && r.Received? then next.(q := q', lost := s.lost + [r.m]) else next
    case Move(p) =>
      match proc.at
      case Checking => With(s, p, proc.(at := Asking))
      case Asking =>
        var reply := Heard(r);
        With(s, p, Process(if reply.Item? then Busy(reply.m) else Gone,
                           proc.turns + [Asked(reply)], proc.completed)).(q := q')
      case Busy(m) => With(s, p, Process(Checking, proc.turns, proc.completed + [m]))
      case Gone => s
  }

  function Start(q: QueueState, n: nat): State {
    State(q, seq(n, _ => Process(Checking, [], [])), [])
  }

  predicate Runs(s: State, steps: seq<Step>)
    decreases |steps|
  {
    |steps| > 0 ==> Enabled(s, steps[0]) && Runs(Act(s, steps[0]), steps[1..])
  }

  function After(s: State, steps: seq<Step>): State
    requires Runs(s, steps)
    decreases |steps|
  {
    if |steps| == 0 then s else After(Act(s, steps[0]), steps[1..])
  }

  // ---- Termination ----

  function Weight(at: At): nat {
    match at case Gone => 0 case Asking => 1 case Checking => 2 case Busy(_) => 3
  }

  function Weights(procs: seq<Process>): nat {
    if |procs| == 0 then 0 else Weights(procs[..|procs| - 1]) + Weight(procs[|procs| - 1].at)
  }

  function Measure(s: State): nat {
    3 * |s.q.messages| + Weights(s.procs)
  }

  lemma {:induction false} WeightsChange(procs: seq<Process>, p: nat, proc: Process)
    requires p < |procs|
    ensures Weights(procs[p := proc]) == Weights(procs) - Weight(procs[p].at) + Weight(proc.at)
  {
    var n := |procs| - 1;
    if p < n {
      WeightsChange(procs[..n], p, proc);
      assert procs[p := proc][..n] == procs[..n][p := proc];
    } else {
      assert procs[p := proc][..n] == procs[..n];
    }
  }

  lemma {:induction false} WeightsZero(procs: seq<Process>)
    ensures Weights(procs) == 0 <==> forall p :: 0 <= p < |procs| ==> procs[p].at.Gone?
  {
    if |procs| > 0 {
      var front := procs[..|procs| - 1];
      WeightsZero(front);
      assert forall p :: 0 <= p < |front| ==> front[p] == procs[p];
    }
  }

  lemma {:induction false} StartWeights(q: QueueState, n: nat)
    ensures Weights(Start(q, n).procs) == 2 * n
  {
    if n > 0 {
      StartWeights(q, n - 1);
      assert Start(q, n).procs[..n - 1] == Start(q, n - 1).procs;
    }
  }

  function Fails(steps: seq<Step>): nat {
    if |steps| == 0 then 0 else (if steps[0].Fail? then 1 else 0) + Fails(steps[1..])
  }

  lemma StepMeasure(s: State, e: Step)
    requires Enabled(s, e)
    ensures Measure(Act(s, e)) + 3 * |Act(s, e).lost| + 1 == Measure(s) + 3 * |s.lost| + (if e.Fail? then 2 else 0)
  {
    WeightsChange(s.procs, e.p, Act(s, e).procs[e.p]);
  }

  lemma {:induction false} RunMeasure(s: State, steps: seq<Step>)
    requires Runs(s, steps)
    ensures |steps| + Measure(After(s, steps)) + 3 * |After(s, steps).lost| ==
            Measure(s) + 3 * |s.lost| + 2 * Fails(steps)
    decreases |steps|
  {
    if |steps| > 0 {
      StepMeasure(s, steps[0]);
      RunMeasure(Act(s, steps[0]), steps[1..]);
    }
  }

  // ---- Conservation ----

  function Times(ms: seq<Message>, m: Message): nat {
    multiset(ms)[m]
  }

  lemma TimesAppended(a: seq<Message>, b: seq<Message>, m: Message)
    ensures Times(a + b, m) == Times(a, m) + Times(b, m)
  {
    assert multiset(a + b) == multiset(a) + multiset(b);
  }

  function InHand(proc: Process): seq<Message> {
    proc.completed + if proc.at.Busy? then [proc.at.m] else []
  }

  // How often the processes have, or had, message m in hand.
  function Held(procs: seq<Process>, m: Message): nat {
    if |procs| == 0 then 0
    else Held(procs[..|procs| - 1], m) + Times(InHand(procs[|procs| - 1]), m)
  }

  lemma {:induction false} HeldChange(procs: seq<Process>, p: nat, proc: Process, m: Message)
    requires p < |procs|
    ensures Held(procs[p := proc], m) == Held(procs, m) - Times(InHand(procs[p]), m) + Times(InHand(proc), m)
  {
    hide Times, InHand;
    var n := |procs| - 1;
    if p < n {
      HeldChange(procs[..n], p, proc, m);
      assert procs[p := proc][..n] == procs[..n][p := proc];
    } else {
      assert procs[p := proc][..n] == procs[..n];
    }
  }

  lemma {:induction false} StartHeld(q: QueueState, n: nat, m: Message)
    ensures Held(Start(q, n).procs, m) == 0
  {
    if n > 0 {
      StartHeld(q, n - 1, m);
      assert Start(q, n).procs[..n - 1] == Start(q, n - 1).procs;
    }
  }

  // How often m is anywhere: still queued, with a process, or lost.
  function Everywhere(s: State, m: Message): nat {
    Times(s.q.messages, m) + Held(s.procs, m) + Times(s.lost, m)
  }

  lemma StepConserves(s: State, e: Step, m: Message)
    requires Enabled(s, e)
    ensures Everywhere(Act(s, e), m) == Everywhere(s, m)
  {
    hide Times;
    var s' := Act(s, e);
    var was, proc := s.procs[e.p], s'.procs[e.p];
    HeldChange(s.procs, e.p, proc, m);
    if s'.q != s.q {
      var first := [s.q.messages[0]];
      assert s.q.messages == first + s'.q.messages;
      TimesAppended(first, s'.q.messages, m);
      TimesAppended(s.lost, first, m);
      TimesAppended(InHand(was), first, m);
      assert InHand(was) == was.completed && InHand(was) + [] == InHand(was);
      if e.Fail? {
        assert InHand(proc) == InHand(was);
      } else {
        assert InHand(proc) == InHand(was) + first;
      }
    } else {
      assert InHand(proc) == InHand(was);
    }
  }

  lemma {:induction false} RunConserves(s: State, steps: seq<Step>, m: Message)
    requires Runs(s, steps)
    ensures Everywhere(After(s, steps), m) == Everywhere(s, m)
    decreases |steps|
  {
    hide Everywhere, Act, Enabled;
    if |steps| > 0 {
      StepConserves(s, steps[0], m);
      RunConserves(Act(s, steps[0]), steps[1..], m);
    }
  }

  // ---- Each process is the worker's loop on its own replies ----

  ghost predicate IsWorker(proc: Process) {
    var w := Work(proc.turns, true);
    w.items == InHand(proc) && w.end == if proc.at.Gone? then Exited else Running
  }

  // Only a process that found the queue empty is gone, and then it stays empty.
  ghost predicate Inv(s: State) {
    && (forall p :: 0 <= p < |s.procs| ==> IsWorker(s.procs[p]))
    && (forall p :: 0 <= p < |s.procs| && s.procs[p].at.Gone? ==> s.q.messages == [])
  }

  lemma StepKeepsInv(s: State, e: Step)
    requires Inv(s) && Enabled(s, e)
    ensures Inv(Act(s, e))
  {
    var s' := Act(s, e);
    var was, proc := s.procs[e.p], s'.procs[e.p];
    assert IsWorker(was);
    if |proc.turns| > |was.turns| {
      assert proc.turns[..|was.turns|] == was.turns;
    }
    assert IsWorker(proc);
    hide IsWorker, OnQueue, Heard;
    assert forall p :: 0 <= p < |s.procs| && p != e.p ==> s'.procs[p] == s.procs[p];
  }

  lemma {:induction false} RunKeepsInv(s: State, steps: seq<Step>)
    requires Inv(s) && Runs(s, steps)
    ensures Inv(After(s, steps))
    decreases |steps|
  {
    if |steps| > 0 {
      StepKeepsInv(s, steps[0]);
      RunKeepsInv(Act(s, steps[0]), steps[1..]);
    }
  }

  // ---- The theorems ----

  ghost predicate AllGone(s: State) {
    forall p :: 0 <= p < |s.procs| ==> s.procs[p].at.Gone?
  }

  // How often the processes completed m.
  function Completed(procs: seq<Process>, m: Message): nat {
    if |procs| == 0 then 0
    else Completed(procs[..|procs| - 1], m) + Times(procs[|procs| - 1].completed, m)
  }

  lemma {:induction false} HeldWhenGone(procs: seq<Process>, m: Message)
    requires forall p :: 0 <= p < |procs| ==> procs[p].at.Gone?
    ensures Held(procs, m) == Completed(procs, m)
  {
    hide Times;
    if |procs| > 0 {
      HeldWhenGone(procs[..|procs| - 1], m);
      assert InHand(procs[|procs| - 1]) == procs[|procs| - 1].completed;
    }
  }

  // The protocol always ends: a run of n processes on a queue of m messages has
  // at most 3m + 2n steps, two more for each failed call; the processes are all
  // gone exactly when the steps (three more for each lost message) add up to that; and as
  // long as they are not, any process still there can step.
  lemma DrainTerminates(q: QueueState, n: nat, steps: seq<Step>)
    requires Runs(Start(q, n), steps)
    ensures var s := After(Start(q, n), steps);
            var bound := 3 * |q.messages| + 2 * n + 2 * Fails(steps);
            && |steps| + 3 * |s.lost| <= bound
            && (AllGone(s) ==> s.q.messages == [] || n == 0)
            && (AllGone(s) && n > 0 ==> |steps| + 3 * |s.lost| == bound)
            && (|steps| + 3 * |s.lost| == bound ==> AllGone(s))
            && (!AllGone(s) ==> exists p :: Enabled(s, Move(p)))
  {
    var s0 := Start(q, n);
    var s := After(s0, steps);
    StartWeights(q, n);
    RunMeasure(s0, steps);
    RunKeepsInv(s0, steps);
    WeightsZero(s.procs);
    ProcsStay(s0, steps);
    if !AllGone(s) {
      var p :| 0 <= p < |s.procs| && !s.procs[p].at.Gone?;
      assert Enabled(s, Move(p));
    } else if n > 0 {
      assert s.procs[0].at.Gone?;
    }
  }

  lemma {:induction false} ProcsStay(s: State, steps: seq<Step>)
    requires Runs(s, steps)
    ensures |After(s, steps).procs| == |s.procs|
    decreases |steps|
  {
    if |steps| > 0 {
      ProcsStay(Act(s, steps[0]), steps[1..]);
    }
  }

  lemma Tally(s0: State, s: State, m: Message)
    requires Everywhere(s, m) == Everywhere(s0, m) && Held(s0.procs, m) == 0 && s0.lost == []
    requires AllGone(s) && s.q.messages == []
    ensures Completed(s.procs, m) + Times(s.lost, m) == Times(s0.q.messages, m)
  {
    HeldWhenGone(s.procs, m);
  }

  lemma EmptyWhenGone(q: QueueState, n: nat, steps: seq<Step>)
    requires Runs(Start(q, n), steps) && n > 0 && AllGone(After(Start(q, n), steps))
    ensures After(Start(q, n), steps).q.messages == []
  {
    RunKeepsInv(Start(q, n), steps);
    ProcsStay(Start(q, n), steps);
    assert After(Start(q, n), steps).procs[0].at.Gone?;
  }

  // When all have exited, the queue is empty, and every message was completed
  // as often as it was queued, but for those lost on the way to a process.
  lemma DrainCompletes(q: QueueState, n: nat, steps: seq<Step>, m: Message)
    requires Runs(Start(q, n), steps) && n > 0 && AllGone(After(Start(q, n), steps))
    ensures var s := After(Start(q, n), steps);
            && s.q.messages == []
            && Completed(s.procs, m) + Times(s.lost, m) == Times(q.messages, m)
            && (Fails(steps) == 0 ==> Completed(s.procs, m) == Times(q.messages, m))
  {
    EmptyWhenGone(q, n, steps);
    RunConserves(Start(q, n), steps, m);
    StartHeld(q, n, m);
    NothingLost(Start(q, n), steps);
    hide Everywhere, Held, Completed, AllGone, Runs, After;
    Tally(Start(q, n), After(Start(q, n), steps), m);
  }

  // Every process did what the worker's own loop does with the replies it got.
  lemma EachIsAWorker(q: QueueState, n: nat, steps: seq<Step>, proc: Process)
    requires Runs(Start(q, n), steps) && proc in After(Start(q, n), steps).procs && proc.at.Gone?
    ensures Work(proc.turns, true) == Worked(proc.completed, Exited)
  {
    RunKeepsInv(Start(q, n), steps);
    var procs := After(Start(q, n), steps).procs;
    var p :| 0 <= p < |procs| && procs[p] == proc;
    assert IsWorker(procs[p]) && InHand(proc) == proc.completed;
  }

  lemma {:induction false} NothingLost(s: State, steps: seq<Step>)
    requires Runs(s, steps)
    ensures Fails(steps) == 0 ==> After(s, steps).lost == s.lost
    decreases |steps|
  {
    if |steps| > 0 {
      NothingLost(Act(s, steps[0]), steps[1..]);
    }
  }

  lemma {:induction false} CompletedBy(procs: seq<Process>, m: Message, p: nat)
    requires p < |procs|
    ensures Completed(procs, m) >= Times(procs[p].completed, m)
    ensures forall r :: 0 <= r < |procs| && r != p ==>
              Completed(procs, m) >= Times(procs[p].completed, m) + Times(procs[r].completed, m)
  {
    hide Times;
    var n := |procs| - 1;
    if p < n {
      CompletedBy(procs[..n], m, p);
    } else {
      forall r | 0 <= r < n ensures Completed(procs[..n], m) >= Times(procs[r].completed, m) {
        CompletedBy(procs[..n], m, r);
      }
    }
  }

  lemma {:induction false} SomeoneCompleted(procs: seq<Process>, m: Message) returns (p: nat)
    requires Completed(procs, m) > 0
    ensures p < |procs| && Times(procs[p].completed, m) > 0
  {
    var n := |procs| - 1;
    if Times(procs[n].completed, m) > 0 {
      p := n;
    } else {
      p := SomeoneCompleted(procs[..n], m);
    }
  }

  // With no failed calls, a message queued once was done by exactly one process,
  // once.
  lemma EachDoneOnce(q: QueueState, n: nat, steps: seq<Step>, m: Message) returns (p: nat)
    requires Runs(Start(q, n), steps) && n > 0 && AllGone(After(Start(q, n), steps)) && Fails(steps) == 0
    requires Times(q.messages, m) == 1
    ensures var procs := After(Start(q, n), steps).procs;
            && p < |procs| && Times(procs[p].completed, m) == 1
            && forall r :: 0 <= r < |procs| && r != p ==> m !in procs[r].completed
  {
    DrainCompletes(q, n, steps, m);
    var procs := After(Start(q, n), steps).procs;
    p := SomeoneCompleted(procs, m);
    CompletedBy(procs, m, p);
    assert forall r :: 0 <= r < |procs| && r != p ==> Times(procs[r].completed, m) == 0;
  }

  // A reply that gets lost after the broker has let go of the message: one process
  // finds the queue empty and exits, and nobody has done the message.
  lemma LostReplyLosesMessage(m: Message)
    ensures var q := Pushed(NEW_QUEUE, m);
            var steps := [Move(0), Fail(0, true), Move(0), Move(0)];
            && Runs(Start(q, 1), steps) && AllGone(After(Start(q, 1), steps))
            && Completed(After(Start(q, 1), steps).procs, m) == 0 && Times(q.messages, m) == 1
  {
  }
}
