/** The in-memory message queue: what each operation does to a queue and to the
    table of queues, and the broker whose methods do it. */
module MemQ {
  import opened Wrappers

  // A message carries the identity given to it when it was put.
  datatype Message = Message(id: nat, body: string)

  // The fields of a queue.
  datatype QueueState = QueueState(depth: int, enqueued: int, dequeued: int, drained: int, messages: seq<Message>)

  datatype Error = EmptyQueue | NotExist | AlreadyExist | NoRandom

  datatype Row = Row(name: string, depth: int, enqueued: int, dequeued: int, drained: int)

  // A Put whose message could not be given an id has `idOk` clear.
  datatype Op =
    | Create(name: string)
    | Delete(name: string)
    | Drain(name: string)
    | Put(name: string, body: string, idOk: bool)
    | Get(name: string)
    | Stats

  datatype Result = Done | Failed(error: Error) | Sent(m: Message) | Received(m: Message) | Rows(rows: seq<Row>)

  type Table = map<string, QueueState>

  const NEW_QUEUE: QueueState := QueueState(0, 0, 0, 0, [])

  // ---- One queue ----

  function Pushed(q: QueueState, m: Message): QueueState {
    q.(messages := q.messages + [m], depth := q.depth + 1, enqueued := q.enqueued + 1)
  }

  function Popped(q: QueueState): QueueState
    requires q.messages != []
  {
    q.(messages := q.messages[1..], depth := q.depth - 1, dequeued := q.dequeued + 1)
  }

  function Emptied(q: QueueState): QueueState {
    q.(messages := [], drained := q.drained + q.depth, depth := 0)
  }

  function RowOf(name: string, q: QueueState): Row {
    Row(name, q.depth, q.enqueued, q.dequeued, q.drained)
  }

  // A row shows the counters of a queue.
  predicate Reports(row: Row, q: QueueState) {
    row.depth == q.depth && row.enqueued == q.enqueued && row.dequeued == q.dequeued && row.drained == q.drained
  }

  // What a call does to a queue it has found: the new queue and the result.
  function OnQueue(q: QueueState, id: nat, op: Op): (QueueState, Result)
    requires op.Drain? || op.Put? || op.Get?
  {
    match op
    case Drain(_) => (Emptied(q), Done)
    case Put(_, body, idOk) =>
      if idOk then (Pushed(q, Message(id, body)), Sent(Message(id, body))) else (q, Failed(NoRandom))
    case Get(_) =>
      if |q.messages| < 1 then (q, Failed(EmptyQueue)) else (Popped(q), Received(q.messages[0]))
  }

  // ---- The broker as a sequential object ----

  // One operation on the table of queues, alone: the new table and the result.
  function Alone(t: Table, id: nat, op: Op): (Table, Result)
    requires !op.Stats?
  {
    var n := op.name;
    if op.Create? then
      if n in t then (t, Failed(AlreadyExist)) else (t[n := NEW_QUEUE], Done)
    else if n !in t then (t, Failed(NotExist))
    else if op.Delete? then (t - {n}, Done)
    else
      var (q, r) := OnQueue(t[n], id, op);
      (t[n := q], r)
  }

  class Queue {
    var depth: int
    var enqueued: int
    var dequeued: int
    var drained: int
    var messages: seq<Message>

    constructor ()
      ensures Value() == NEW_QUEUE
    {
      depth, enqueued, dequeued, drained, messages := 0, 0, 0, 0, [];
    }

    ghost function Value(): QueueState
      reads this
    {
      QueueState(depth, enqueued, dequeued, drained, messages)
    }
  }

  class Broker {
    var queues: map<string, Queue>

    // Two names never share a queue.
    ghost predicate Valid()
      reads this
    {
      forall m, n :: m in queues && n in queues && m != n ==> queues[m] != queues[n]
    }

    ghost function View(): Table
      reads this, queues.Values
    {
      map n | n in queues :: queues[n].Value()
    }

    constructor ()
      ensures Valid() && View() == map[]
    {
      queues := map[];
    }

    method CreateQueue(name: string, ghost id: nat) returns (r: Result)
      requires Valid()
      modifies this
      ensures Valid() && (View(), r) == Alone(old(View()), id, Create(name))
      ensures name in old(View()) ==> r == Failed(AlreadyExist) && View() == old(View())
      ensures name !in old(View()) ==> r == Done && View() == old(View())[name := QueueState(0, 0, 0, 0, [])]
      ensures forall n :: n in queues && n !in old(queues) ==> fresh(queues[n])
    {
      if name in queues {
        return Failed(AlreadyExist);
      }
      var q := new Queue();
      queues := queues[name := q];
      assert View() == old(View())[name := NEW_QUEUE];
      return Done;
    }

    method DeleteQueue(name: string, ghost id: nat) returns (r: Result)
      requires Valid()
      modifies this
      ensures Valid() && (View(), r) == Alone(old(View()), id, Delete(name))
      ensures View() == old(View()) - {name} && r == if name in old(View()) then Done else Failed(NotExist)
    {
      if name !in queues {
        return Failed(NotExist);
      }
      queues := queues - {name};
      assert View() == old(View()) - {name};
      return Done;
    }

    method DrainQueue(name: string, ghost id: nat) returns (r: Result)
      requires Valid()
      modifies queues.Values
      ensures Valid() && (View(), r) == Alone(old(View()), id, Drain(name))
      ensures name !in old(View()) ==> r == Failed(NotExist) && View() == old(View())
      ensures name in old(View()) ==>
                var q := old(View())[name];
                && r == Done
                && View() == old(View())[name := QueueState(0, q.enqueued, q.dequeued, q.drained + q.depth, [])]
    {
      if name !in queues {
        return Failed(NotExist);
      }
      var q := queues[name];
      q.messages := [];
      q.drained := q.drained + q.depth;
      q.depth := 0;
      assert View() == old(View())[name := q.Value()];
      return Done;
    }

    method GetQueue(name: string) returns (q: Option<Queue>)
      ensures q == if name in queues then Some(queues[name]) else None
    {
      if name !in queues {
        return None;
      }
      return Some(queues[name]);
    }

    // `id` is the message's random identity; drawing one may fail.
    method PutMessage(name: string, body: string, id: nat, idOk: bool) returns (r: Result)
      requires Valid()
      modifies queues.Values
      ensures Valid() && (View(), r) == Alone(old(View()), id, Put(name, body, idOk))
      ensures name !in old(View()) ==> r == Failed(NotExist)
      ensures name in old(View()) && !idOk ==> r == Failed(NoRandom)
      ensures !r.Sent? ==> View() == old(View())
      ensures name in old(View()) && idOk ==>
                var q := old(View())[name];
                && r.Sent? && r.m.id == id && r.m.body == body
                && View() == old(View())[name := QueueState(q.depth + 1, q.enqueued + 1, q.dequeued, q.drained,
                                                            q.messages + [r.m])]
    {
      var found := GetQueue(name);
      if found.None? {
        return Failed(NotExist);
      }
      var q := found.value;
      if !idOk {
        assert View()[name := q.Value()] == View();
        return Failed(NoRandom);
      }
      var message := Message(id, body);
      q.messages := q.messages + [message];
      q.depth := q.depth + 1;
      q.enqueued := q.enqueued + 1;
      assert View() == old(View())[name := q.Value()];
      return Sent(message);
    }

    method GetMessage(name: string, ghost id: nat) returns (r: Result)
      requires Valid()
      modifies queues.Values
      ensures Valid() && (View(), r) == Alone(old(View()), id, Get(name))
      ensures name !in old(View()) ==> r == Failed(NotExist)
      ensures name in old(View()) && old(View())[name].messages == [] ==> r == Failed(EmptyQueue)
      ensures !r.Received? ==> View() == old(View())
      ensures name in old(View()) && old(View())[name].messages != [] ==>
                var q := old(View())[name];
                && r.Received? && q.messages == [r.m] + View()[name].messages
                && View() == old(View())[name := QueueState(q.depth - 1, q.enqueued, q.dequeued + 1, q.drained,
                                                            View()[name].messages)]
    {
      var found := GetQueue(name);
      if found.None? {
        return Failed(NotExist);
      }
      var q := found.value;
      if |q.messages| < 1 {
        assert View()[name := q.Value()] == View();
        return Failed(EmptyQueue);
      }
      var m := q.messages[0];
      q.messages := q.messages[1..];
      q.depth := q.depth - 1;
      q.dequeued := q.dequeued + 1;
      assert View() == old(View())[name := q.Value()];
      return Received(m);
    }

    // One row a queue, in whatever order the map yields them.
    method GetStats() returns (rows: seq<Row>)
      requires Valid()
      ensures |rows| == |queues|
      ensures forall row :: row in rows <==> row.name in queues && Reports(row, View()[row.name])
    {
      rows := [];
      var todo := queues.Keys;
      while todo != {}
        invariant todo <= queues.Keys
        invariant |rows| + |todo| == |queues.Keys|
        invariant forall row :: row in rows <==>
                    row.name in queues && row.name !in todo && Reports(row, View()[row.name])
        decreases todo
      {
        var name :| name in todo;
        var q := queues[name];
        rows := rows + [Row(name, q.depth, q.enqueued, q.dequeued, q.drained)];
        todo := todo - {name};
      }
    }
  }
}
