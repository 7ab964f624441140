/** The broker under concurrent calls, one lock operation or critical section a
    step.  Queues live in a heap and are reached by address, so a call may go on
    using a queue that is no longer in the table. */
module BrokerSteps {
  import opened Wrappers
  import opened MemQ

  // A message removed from a queue, and the call that removed it.
  datatype Taken = Taken(m: Message, taker: nat)

  // A queue in the heap, with the name it was created under and its history:
  // everything ever put, and everything ever taken out, in order; the calls that
  // have worked on it, in the order in which they had its lock, and those among
  // them that came late, when it was no longer in the table.
  datatype Obj = Obj(name: string, q: QueueState, put: seq<Message>, taken: seq<Taken>,
                     workers: seq<nat>, late: seq<nat>)

  // Where a call is.  `o` is the address of the queue it works on.
  datatype Pc =
    | Start                   // invoked
    | WaitB                   // waiting for the broker lock
    | InB                     // holding the broker lock
    | Have(o: nat)            // holding a queue's address
    | WaitQ(o: nat)           // waiting for that queue's lock
    | InQ(o: nat)             // holding that queue's lock
    | Scan(todo: set<string>, rows: seq<Row>)
    | ScanAt(name: string, o: nat, todo: set<string>, rows: seq<Row>)
    | ScanIn(name: string, o: nat, todo: set<string>, rows: seq<Row>)
    | Leave(res: Result, held: Option<nat>)   // about to unlock and return
    | Returned(res: Result)

  // A call, with the times of its invocation and of its return.
  datatype Call = Call(op: Op, pc: Pc, inv: nat, resp: Option<nat>)

  datatype State = State(heap: seq<Obj>, table: map<string, nat>, calls: seq<Call>, now: nat)

  const INIT: State := State([], map[], [], 0)

  datatype Step = Invoke(op: Op) | Move(c: nat) | Visit(c: nat, name: string)

  // ---- Locks, read off the calls' positions ----

  predicate WritesB(op: Op) {
    op.Create? || op.Delete? || op.Drain?
  }

  // Put and Get let go of the broker lock once they have the queue's address.
  predicate HoldsB(c: Call) {
    c.pc.InB? || ((WritesB(c.op) || c.op.Stats?) && !c.pc.Start? && !c.pc.WaitB? && !c.pc.Returned?)
  }

  predicate HoldsQ(c: Call, o: nat) {
    || c.pc == InQ(o)
    || (c.pc.Leave? && c.pc.held == Some(o))
    || (c.pc.ScanIn? && c.pc.o == o)
  }

  // A lock is granted to a writer when nobody holds it, and to a reader when no
  // writer holds it or waits for it.
  ghost predicate GrantsB(s: State, c: nat)
    requires c < |s.calls|
  {
    if WritesB(s.calls[c].op)
    then forall d :: 0 <= d < |s.calls| && d != c ==> !HoldsB(s.calls[d])
    else forall d :: 0 <= d < |s.calls| && d != c && WritesB(s.calls[d].op) ==>
           !HoldsB(s.calls[d]) && !s.calls[d].pc.WaitB?
  }

  ghost predicate GrantsQ(s: State, c: nat, o: nat)
    requires c < |s.calls|
  {
    if s.calls[c].op.Stats?
    then forall d :: 0 <= d < |s.calls| && d != c ==>
           s.calls[d].pc != WaitQ(o) && (!s.calls[d].op.Stats? ==> !HoldsQ(s.calls[d], o))
    else forall d :: 0 <= d < |s.calls| && d != c ==> !HoldsQ(s.calls[d], o)
  }

  // ---- Steps ----

  ghost predicate Enabled(s: State, e: Step) {
    match e
    case Invoke(_) => true
    case Move(c) =>
      c < |s.calls| && (
        match s.calls[c].pc
        case WaitB => GrantsB(s, c)
        case WaitQ(o) => GrantsQ(s, c, o)
        case ScanAt(_, o, _, _) => GrantsQ(s, c, o)
        case InQ(o) => o < |s.heap| && (s.calls[c].op.Put? || s.calls[c].op.Get? || s.calls[c].op.Drain?)
        case ScanIn(_, o, _, _) => o < |s.heap|
        case Scan(todo, _) => todo == {}
        case Returned(_) => false
        case _ => true)
    case Visit(c, n) =>
      c < |s.calls| && s.calls[c].pc.Scan? && n in s.calls[c].pc.todo && n in s.table
  }

  function Goto(s: State, c: nat, pc: Pc): (r: State)
    requires c < |s.calls|
    ensures |r.calls| == |s.calls|
  {
    s.(calls := s.calls[c := s.calls[c].(pc := pc)], now := s.now + 1)
  }

  function NewObj(name: string): Obj {
    Obj(name, NEW_QUEUE, [], [], [], [])
  }

  // What a call does inside the broker lock.
  function Inside(s: State, c: nat): (r: State)
    requires c < |s.calls|
    ensures |r.calls| == |s.calls|
  {
    var op := s.calls[c].op;
    if op.Stats? then Goto(s, c, Scan(s.table.Keys, []))
    else if op.Create? then
      if op.name in s.table then Goto(s, c, Leave(Failed(AlreadyExist), None))
      else Goto(s.(heap := s.heap + [NewObj(op.name)], table := s.table[op.name := |s.heap|]),
                c, Leave(Done, None))
    else if op.name !in s.table then Goto(s, c, Leave(Failed(NotExist), None))
    else if op.Delete? then Goto(s.(table := s.table - {op.name}), c, Leave(Done, None))
    else if op.Put? && !op.idOk then Goto(s, c, Leave(Failed(NoRandom), None))
    else Goto(s, c, Have(s.table[op.name]))
  }

  // A queue that is still in the table.
  predicate Alive(s: State, o: nat) {
    o < |s.heap| && s.heap[o].name in s.table && s.table[s.heap[o].name] == o
  }

  // The effect of a Put, Get or Drain on the queue it has locked.
  function Worked(obj: Obj, c: nat, op: Op, alive: bool): (r: Obj)
    requires op.Put? || op.Get? || op.Drain?
    ensures r.name == obj.name
  {
    var (q, r) := OnQueue(obj.q, c, op);
    Obj(obj.name, q,
        if r.Sent? then obj.put + [r.m] else obj.put,
        if r.Received? then obj.taken + [Taken(r.m, c)]
        else if op.Drain? then obj.taken + TakenAll(obj.q.messages, c)
        else obj.taken,
        obj.workers + [c], if alive then obj.late else obj.late + [c])
  }

  function TakenAll(ms: seq<Message>, taker: nat): (r: seq<Taken>)
    ensures |r| == |ms| && forall i :: 0 <= i < |ms| ==> r[i] == Taken(ms[i], taker)
  {
    seq(|ms|, i requires 0 <= i < |ms| => Taken(ms[i], taker))
  }

  function Act(s: State, e: Step): State
    requires Enabled(s, e)
  {
    match e
    case Invoke(op) => s.(calls := s.calls + [Call(op, Start, s.now, None)], now := s.now + 1)
    case Visit(c, n) =>
      var pc := s.calls[c].pc;
      Goto(s, c, ScanAt(n, s.table[n], pc.todo - {n}, pc.rows))
    case Move(c) =>
      var op := s.calls[c].op;
      match s.calls[c].pc
      case Start => Goto(s, c, WaitB)
      case WaitB => Goto(s, c, InB)
      case InB => Inside(s, c)
      case Have(o) => Goto(s, c, WaitQ(o))
      case WaitQ(o) => Goto(s, c, InQ(o))
      case InQ(o) =>
        Goto(s.(heap := s.heap[o := Worked(s.heap[o], c, op, Alive(s, o))]), c,
             Leave(OnQueue(s.heap[o].q, c, op).1, Some(o)))
      case Scan(_, rows) => Goto(s, c, Leave(Rows(rows), None))
      case ScanAt(n, o, todo, rows) => Goto(s, c, ScanIn(n, o, todo, rows))
      case ScanIn(n, o, todo, rows) => Goto(s, c, Scan(todo, rows + [RowOf(n, s.heap[o].q)]))
      case Leave(res, _) =>
        s.(calls := s.calls[c := s.calls[c].(pc := Returned(res), resp := Some(s.now))], now := s.now + 1)
      case Returned(_) => s
  }

  ghost predicate Runs(s: State, steps: seq<Step>)
    decreases |steps|
  {
    |steps| > 0 ==> Enabled(s, steps[0]) && Runs(Act(s, steps[0]), steps[1..])
  }

  ghost function After(s: State, steps: seq<Step>): State
    requires Runs(s, steps)
    decreases |steps|
  {
    if |steps| == 0 then s else After(Act(s, steps[0]), steps[1..])
  }

  // ---- What a step leaves alone ----

  function Mover(s: State, e: Step): nat {
    match e
    case Invoke(_) => |s.calls|
    case Move(c) => c
    case Visit(c, _) => c
  }

  // Queues are never freed or renamed.
  ghost predicate Extends(heap: seq<Obj>, heap': seq<Obj>) {
    |heap| <= |heap'| && forall o :: 0 <= o < |heap| ==> heap'[o].name == heap[o].name
  }

  lemma StepFrame(s: State, e: Step)
    requires Enabled(s, e)
    ensures var s' := Act(s, e); var c := Mover(s, e);
            && s'.now == s.now + 1 && c < |s'.calls| && (c < |s.calls| <==> !e.Invoke?)
            && |s'.calls| == (if e.Invoke? then |s.calls| + 1 else |s.calls|)
            && (forall d :: 0 <= d < |s.calls| && d != c ==> s'.calls[d] == s.calls[d])
            && (c < |s.calls| ==> s'.calls[c].op == s.calls[c].op && s'.calls[c].inv == s.calls[c].inv)
            && Extends(s.heap, s'.heap)
            && (s'.table != s.table ==> c < |s.calls| && WritesB(s.calls[c].op) && HoldsB(s.calls[c]))
  {
    hide GrantsB, GrantsQ, OnQueue, RowOf, Alive, Worked;
  }

  // ---- Structure: addresses, and who excludes whom ----

  predicate OnAQueue(pc: Pc) {
    pc.Have? || pc.WaitQ? || pc.InQ?
  }

  predicate InScan(pc: Pc) {
    pc.Scan? || pc.ScanAt? || pc.ScanIn?
  }

  ghost predicate TableOk(heap: seq<Obj>, table: map<string, nat>) {
    forall n :: n in table ==> table[n] < |heap| && heap[table[n]].name == n
  }

  // A call's addresses are good, and what a Drain or a Stats found in the table
  // is still there.
  predicate Sound(heap: seq<Obj>, table: map<string, nat>, call: Call) {
    && (OnAQueue(call.pc) ==>
          && (call.op.Put? || call.op.Get? || call.op.Drain?)
          && call.pc.o < |heap| && heap[call.pc.o].name == call.op.name
          && (call.op.Drain? ==> call.op.name in table && table[call.op.name] == call.pc.o))
    && (call.pc.ScanAt? || call.pc.ScanIn? ==> call.pc.o < |heap| && heap[call.pc.o].name == call.pc.name)
    && (InScan(call.pc) ==> call.op.Stats? && call.pc.todo <= table.Keys)
  }

  ghost predicate AllSound(s: State) {
    TableOk(s.heap, s.table) && forall c :: 0 <= c < |s.calls| ==> Sound(s.heap, s.table, s.calls[c])
  }

  // A writer of the broker lock excludes everyone, and so does a writer of a
  // queue's lock.
  ghost predicate Exclusion(s: State) {
    && (forall c, d :: 0 <= c < |s.calls| && 0 <= d < |s.calls| && c != d ==>
          BothB(s.calls[c], s.calls[d]))
    && (forall c, d, o :: 0 <= c < |s.calls| && 0 <= d < |s.calls| && c != d ==>
          BothQ(s.calls[c], s.calls[d], o))
  }

  predicate BothB(c: Call, d: Call) {
    HoldsB(c) && HoldsB(d) ==> !WritesB(c.op)
  }

  predicate BothQ(c: Call, d: Call, o: nat) {
    HoldsQ(c, o) && HoldsQ(d, o) ==> c.op.Stats?
  }

  lemma SoundStays(heap: seq<Obj>, table: map<string, nat>, heap': seq<Obj>, table': map<string, nat>, call: Call)
    requires Sound(heap, table, call) && Extends(heap, heap')
    requires HoldsB(call) ==> table' == table
    ensures Sound(heap', table', call)
  {
  }

  lemma StepKeepsTableOk(s: State, e: Step)
    requires TableOk(s.heap, s.table) && Enabled(s, e)
    ensures TableOk(Act(s, e).heap, Act(s, e).table)
  {
    hide Worked, RowOf;
    if e.Move? && s.calls[e.c].pc.InQ? {
      StepFrame(s, e);
      hide Act, Enabled;
    }
  }

  lemma InsideSound(s: State, c: nat)
    requires AllSound(s) && c < |s.calls| && s.calls[c].pc.InB?
    ensures Sound(Inside(s, c).heap, Inside(s, c).table, Inside(s, c).calls[c])
  {
  }

  lemma MoverSound(s: State, e: Step)
    requires AllSound(s) && Enabled(s, e)
    ensures Sound(Act(s, e).heap, Act(s, e).table, Act(s, e).calls[Mover(s, e)])
  {
    hide Worked, RowOf, OnQueue, GrantsB, GrantsQ;
    if !e.Invoke? {
      assert Sound(s.heap, s.table, s.calls[e.c]);
      if e.Move? && s.calls[e.c].pc.InB? {
        InsideSound(s, e.c);
        hide Inside, Sound, Enabled;
      } else {
        hide Inside;
      }
    }
  }

  lemma StepKeepsSound(s: State, e: Step)
    requires AllSound(s) && Exclusion(s) && Enabled(s, e)
    ensures AllSound(Act(s, e))
  {
    hide Act, Enabled, Sound, TableOk;
    var s' := Act(s, e);
    var c := Mover(s, e);
    StepFrame(s, e);
    StepKeepsTableOk(s, e);
    MoverSound(s, e);
    forall d | 0 <= d < |s'.calls| && d != c ensures Sound(s'.heap, s'.table, s'.calls[d]) {
      if HoldsB(s.calls[d]) && c < |s.calls| {
        assert BothB(s.calls[c], s.calls[d]);
      }
      SoundStays(s.heap, s.table, s'.heap, s'.table, s.calls[d]);
    }
  }

  // A step takes a lock only when it is granted.
  lemma MoverLocks(s: State, e: Step)
    requires Enabled(s, e)
    ensures var call' := Act(s, e).calls[Mover(s, e)];
            && (HoldsB(call') ==> Mover(s, e) < |s.calls| && (HoldsB(s.calls[Mover(s, e)]) || GrantsB(s, Mover(s, e))))
            && (forall o :: HoldsQ(call', o) ==>
                  Mover(s, e) < |s.calls| && (HoldsQ(s.calls[Mover(s, e)], o) || GrantsQ(s, Mover(s, e), o)))
  {
  }

  lemma StepKeepsExclusion(s: State, e: Step)
    requires Exclusion(s) && Enabled(s, e)
    ensures Exclusion(Act(s, e))
  {
    hide Act, Enabled, HoldsB, HoldsQ;
    var s' := Act(s, e);
    var c := Mover(s, e);
    StepFrame(s, e);
    MoverLocks(s, e);
    forall d | 0 <= d < |s'.calls| && d != c
      ensures BothB(s'.calls[c], s'.calls[d]) && BothB(s'.calls[d], s'.calls[c])
    {
      if HoldsB(s'.calls[c]) {
        assert BothB(s.calls[c], s.calls[d]) && BothB(s.calls[d], s.calls[c]);
      }
    }
    forall d, o | 0 <= d < |s'.calls| && d != c
      ensures BothQ(s'.calls[c], s'.calls[d], o) && BothQ(s'.calls[d], s'.calls[c], o)
    {
      if HoldsQ(s'.calls[c], o) {
        assert BothQ(s.calls[c], s.calls[d], o) && BothQ(s.calls[d], s.calls[c], o);
      }
    }
  }
}
