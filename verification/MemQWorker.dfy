/** The worker that takes its items from a message queue: one loop that asks,
    works, retries after trouble and, if so configured, exits the process when
    the queue is empty. */
module MemQWorker {
  import opened MemQ

  // What the client makes of a dequeue call.
  datatype Reply = Trouble | Empty | Item(m: Message)

  // One turn of the loop: the context turns out to be cancelled, or the worker
  // asks and gets a reply.
  datatype Turn = Cancelled | Asked(reply: Reply)

  datatype End = Running | Stopped | Exited

  // The items done and where the worker is after the given turns.
  datatype Worked = Worked(items: seq<Message>, end: End)

  function Next(w: Worked, turn: Turn, exitOnComplete: bool): Worked {
    if !w.end.Running? then w
    else match turn
      case Cancelled => w.(end := Stopped)
      case Asked(Trouble) => w
      case Asked(Empty) => if exitOnComplete then w.(end := Exited) else w
      case Asked(Item(m)) => w.(items := w.items + [m])
  }

  function Work(turns: seq<Turn>, exitOnComplete: bool): Worked {
    if |turns| == 0 then Worked([], Running)
    else Next(Work(turns[..|turns| - 1], exitOnComplete), turns[|turns| - 1], exitOnComplete)
  }

  // The items handed out before the worker stopped, in order.
  function Handed(turns: seq<Turn>): seq<Message> {
    if |turns| == 0 then []
    else
      var last := turns[|turns| - 1];
      Handed(turns[..|turns| - 1]) + if last.Asked? && last.reply.Item? then [last.reply.m] else []
  }

  predicate Stops(turn: Turn, exitOnComplete: bool) {
    turn.Cancelled? || (turn == Asked(Empty) && exitOnComplete)
  }

  // The first turn that ends the worker, if any.
  function FirstStop(turns: seq<Turn>, exitOnComplete: bool): (r: nat)
    ensures r <= |turns|
    ensures forall j :: 0 <= j < r ==> !Stops(turns[j], exitOnComplete)
    ensures r < |turns| ==> Stops(turns[r], exitOnComplete)
  {
    if |turns| == 0 then 0
    else
      var r := FirstStop(turns[..|turns| - 1], exitOnComplete);
      if r < |turns| - 1 || Stops(turns[r], exitOnComplete) then r else |turns|
  }

  // A worker ends at its first cancelled turn, or at the first empty reply if it
  // exits on completion, and it has done exactly what it was handed till then.
  lemma {:induction false} WorkEndsAtFirstStop(turns: seq<Turn>, exitOnComplete: bool)
    ensures var n := FirstStop(turns, exitOnComplete);
            Work(turns, exitOnComplete) ==
            Worked(Handed(turns[..n]),
                   if n == |turns| then Running else if turns[n].Cancelled? then Stopped else Exited)
  {
    if |turns| > 0 {
      var front := turns[..|turns| - 1];
      WorkEndsAtFirstStop(front, exitOnComplete);
      var r := FirstStop(front, exitOnComplete);
      assert front[..r] == turns[..r] && turns[..|turns|] == turns;
    } else {
      assert turns[..0] == turns;
    }
  }

  // A worker ends the process if it is told to and the queue turns out empty before
  // it is cancelled.
  ghost predicate EndsProcess(turns: seq<Turn>, exitOnComplete: bool) {
    && exitOnComplete
    && exists i :: 0 <= i < |turns| && turns[i] == Asked(Empty) && forall j :: 0 <= j < i ==> !turns[j].Cancelled?
  }

  lemma ExitedIff(turns: seq<Turn>, exitOnComplete: bool)
    ensures Work(turns, exitOnComplete).end.Exited? <==> EndsProcess(turns, exitOnComplete)
  {
    WorkEndsAtFirstStop(turns, exitOnComplete);
    hide Work, Handed;
  }

  // The loop, against everything its context and the server will say to it.  It
  // uses up no more turns than it lives for.
  method StartWork(turns: seq<Turn>, exitOnComplete: bool) returns (items: seq<Message>, end: End, used: nat)
    ensures Worked(items, end) == Work(turns, exitOnComplete)
    ensures end.Exited? <==> EndsProcess(turns, exitOnComplete)
    ensures used <= |turns| && Work(turns[..used], exitOnComplete) == Worked(items, end)
    ensures end.Running? ==> used == |turns|
    ensures !end.Running? ==> used > 0 && Work(turns[..used - 1], exitOnComplete).end.Running?
  {
    items, end, used := [], Running, 0;
    while used < |turns|
      invariant used <= |turns| && end.Running?
      invariant Work(turns[..used], exitOnComplete) == Worked(items, Running)
    {
      var turn := turns[used];
      assert turns[..used + 1][..used] == turns[..used];
      used := used + 1;
      if turn.Cancelled? {
        end := Stopped;
        break;
      }
      if turn.reply.Trouble? {
        continue;
      }
      if turn.reply.Empty? {
        if exitOnComplete {
          end := Exited;
          break;
        }
        continue;
      }
      items := items + [turn.reply.m];
    }
    assert end.Running? ==> turns[..used] == turns;
    EndedStaysEnded(turns, used, exitOnComplete);
    ExitedIff(turns, exitOnComplete);
    if !end.Running? {
      assert turns[..used][..used - 1] == turns[..used - 1];
    }
  }

  lemma {:induction false} EndedStaysEnded(turns: seq<Turn>, n: nat, exitOnComplete: bool)
    requires n <= |turns|
    ensures !Work(turns[..n], exitOnComplete).end.Running? ==>
              Work(turns, exitOnComplete) == Work(turns[..n], exitOnComplete)
  {
    if n < |turns| {
      EndedStaysEnded(turns[..|turns| - 1], n, exitOnComplete);
      assert turns[..|turns| - 1][..n] == turns[..n];
    } else {
      assert turns[..n] == turns;
    }
  }
}
