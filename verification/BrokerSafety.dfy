/** What holds in every reachable state of the concurrent broker, for live and
    deleted queues alike: the ledger, first-in-first-out order, delivery at most
    once, and freedom from deadlock. */
module BrokerSafety {
  import opened MemQ
  import opened BrokerSteps

  // ---- The ledger of one queue ----

  function Messages(taken: seq<Taken>): (r: seq<Message>)
    ensures |r| == |taken| && forall i :: 0 <= i < |taken| ==> r[i] == taken[i].m
  {
    seq(|taken|, i requires 0 <= i < |taken| => taken[i].m)
  }

  // The counters count, and the messages come out in the order they went in.
  ghost predicate Balanced(obj: Obj) {
    && obj.q.depth == |obj.q.messages|
    && obj.q.enqueued == |obj.put|
    && obj.q.dequeued + obj.q.drained == |obj.taken|
    && obj.put == Messages(obj.taken) + obj.q.messages
  }

  predicate RowBalanced(row: Row) {
    row.depth >= 0 && row.enqueued == row.dequeued + row.drained + row.depth
  }

  lemma WorkKeepsBalanced(obj: Obj, c: nat, op: Op, alive: bool)
    requires Balanced(obj) && (op.Put? || op.Get? || op.Drain?)
    ensures Balanced(Worked(obj, c, op, alive))
  {
    var next := Worked(obj, c, op, alive);
    assert next.put == Messages(next.taken) + next.q.messages;
  }

  // The rows a Stats call has read so far.
  function RowsOf(pc: Pc): seq<Row> {
    match pc
    case Scan(_, rows) => rows
    case ScanAt(_, _, _, rows) => rows
    case ScanIn(_, _, _, rows) => rows
    case Leave(res, _) => if res.Rows? then res.rows else []
    case Returned(res) => if res.Rows? then res.rows else []
    case _ => []
  }

  ghost predicate Ledger(s: State) {
    && (forall o :: 0 <= o < |s.heap| ==> Balanced(s.heap[o]))
    && (forall c, i :: 0 <= c < |s.calls| && 0 <= i < |RowsOf(s.calls[c].pc)| ==>
          RowBalanced(RowsOf(s.calls[c].pc)[i]))
  }

  lemma StepKeepsBalance(s: State, e: Step)
    requires Enabled(s, e)
    requires forall o :: 0 <= o < |s.heap| ==> Balanced(s.heap[o])
    ensures forall o :: 0 <= o < |Act(s, e).heap| ==> Balanced(Act(s, e).heap[o])
  {
    hide Balanced, Worked;
    var s' := Act(s, e);
    if e.Move? && s.calls[e.c].pc.InQ? {
      var o := s.calls[e.c].pc.o;
      WorkKeepsBalanced(s.heap[o], e.c, s.calls[e.c].op, Alive(s, o));
    } else if |s'.heap| > |s.heap| {
      NewQueueBalanced(s'.heap[|s.heap|]);
    }
  }

  lemma NewQueueBalanced(obj: Obj)
    requires obj == NewObj(obj.name)
    ensures Balanced(obj)
  {
  }

  lemma MoverRowsBalanced(s: State, e: Step)
    requires Ledger(s) && Enabled(s, e)
    ensures var pc := Act(s, e).calls[Mover(s, e)].pc;
            forall i :: 0 <= i < |RowsOf(pc)| ==> RowBalanced(RowsOf(pc)[i])
  {
    hide Worked;
    if !e.Invoke? {
      var rows := RowsOf(s.calls[Mover(s, e)].pc);
      assert forall i :: 0 <= i < |rows| ==> RowBalanced(rows[i]);
      if s.calls[e.c].pc.ScanIn? {
        assert Balanced(s.heap[s.calls[e.c].pc.o]);
      }
    }
  }

  lemma StepKeepsLedger(s: State, e: Step)
    requires Ledger(s) && Enabled(s, e)
    ensures Ledger(Act(s, e))
  {
    hide Act, Enabled, Balanced, RowBalanced, RowsOf;
    StepFrame(s, e);
    StepKeepsBalance(s, e);
    MoverRowsBalanced(s, e);
  }

  // ---- Who took what ----

  // How many messages were taken by Get calls, the others being drained.
  function Gets(taken: seq<Taken>, calls: seq<Call>): (r: int) {
    if |taken| == 0 then 0
    else
      var last := taken[|taken| - 1];
      Gets(taken[..|taken| - 1], calls) + if last.taker < |calls| && calls[last.taker].op.Get? then 1 else 0
  }

  ghost predicate Counted(obj: Obj, calls: seq<Call>) {
    && (forall i :: 0 <= i < |obj.taken| ==> obj.taken[i].taker < |calls|)
    && obj.q.dequeued == Gets(obj.taken, calls)
  }

  ghost predicate AllCounted(s: State) {
    forall o :: 0 <= o < |s.heap| ==> Counted(s.heap[o], s.calls)
  }

  lemma {:induction false} GetsSame(taken: seq<Taken>, calls: seq<Call>, calls': seq<Call>)
    requires |calls| <= |calls'| && forall c :: 0 <= c < |calls| ==> calls'[c].op == calls[c].op
    requires forall i :: 0 <= i < |taken| ==> taken[i].taker < |calls|
    ensures Gets(taken, calls') == Gets(taken, calls)
  {
    if |taken| > 0 {
      GetsSame(taken[..|taken| - 1], calls, calls');
    }
  }

  lemma {:induction false} DrainedIsNotGot(taken: seq<Taken>, ms: seq<Message>, c: nat, calls: seq<Call>)
    requires c < |calls| && calls[c].op.Drain?
    ensures Gets(taken + TakenAll(ms, c), calls) == Gets(taken, calls)
  {
    var all := taken + TakenAll(ms, c);
    if |ms| == 0 {
      assert all == taken;
    } else {
      DrainedIsNotGot(taken, ms[..|ms| - 1], c, calls);
      assert all[..|all| - 1] == taken + TakenAll(ms[..|ms| - 1], c);
    }
  }

  lemma WorkCounted(obj: Obj, c: nat, calls: seq<Call>, alive: bool)
    requires c < |calls| && Counted(obj, calls)
    requires calls[c].op.Put? || calls[c].op.Get? || calls[c].op.Drain?
    ensures Counted(Worked(obj, c, calls[c].op, alive), calls)
  {
    var op := calls[c].op;
    if op.Drain? {
      DrainedIsNotGot(obj.taken, obj.q.messages, c, calls);
    } else if op.Get? && obj.q.messages != [] {
      GetsSnoc(obj.taken, Taken(obj.q.messages[0], c), calls);
    }
    hide Gets;
  }

  lemma GetsSnoc(taken: seq<Taken>, t: Taken, calls: seq<Call>)
    requires t.taker < |calls|
    ensures Gets(taken + [t], calls) == Gets(taken, calls) + if calls[t.taker].op.Get? then 1 else 0
  {
    assert (taken + [t])[..|taken|] == taken;
  }

  lemma StepKeepsCounted(s: State, e: Step)
    requires AllCounted(s) && Enabled(s, e)
    ensures AllCounted(Act(s, e))
  {
    var s' := Act(s, e);
    StepFrame(s, e);
    forall o | 0 <= o < |s'.heap| ensures Counted(s'.heap[o], s'.calls) {
      if o < |s.heap| {
        GetsSame(s.heap[o].taken, s.calls, s'.calls);
        assert Counted(s.heap[o], s.calls) && Counted(s.heap[o], s'.calls);
        if e.Move? && s.calls[e.c].pc == InQ(o) {
          WorkCounted(s.heap[o], e.c, s'.calls, Alive(s, o));
        }
      }
    }
    hide Worked, Gets, GrantsB, GrantsQ, OnQueue, Alive;
  }

  // ---- Delivery at most once ----

  predicate Finished(pc: Pc, res: Result) {
    (pc.Leave? && pc.res == res) || pc == Returned(res)
  }

  // Every message in a queue's history was put there by the call it is named
  // after, with the body that call was given, under the queue's name; and no two
  // places hold the same one.
  ghost predicate Origins(heap: seq<Obj>, calls: seq<Call>) {
    && (forall o, i :: 0 <= o < |heap| && 0 <= i < |heap[o].put| ==>
          && heap[o].put[i].id < |calls|
          && Finished(calls[heap[o].put[i].id].pc, Sent(heap[o].put[i]))
          && calls[heap[o].put[i].id].op == Put(heap[o].name, heap[o].put[i].body, true))
    && (forall o, i, p, j ::
          0 <= o < |heap| && 0 <= i < |heap[o].put| && 0 <= p < |heap| && 0 <= j < |heap[p].put| ==>
          heap[o].put[i].id == heap[p].put[j].id ==> o == p && i == j)
  }

  ghost predicate TookIt(heap: seq<Obj>, m: Message, c: nat, name: string) {
    exists o, i ::
      0 <= o < |heap| && heap[o].name == name && 0 <= i < |heap[o].taken| && heap[o].taken[i] == Taken(m, c)
  }

  // A call that received a message took it out of the queue it asked for.
  ghost predicate Receipts(heap: seq<Obj>, calls: seq<Call>) {
    forall c, m :: 0 <= c < |calls| && Finished(calls[c].pc, Received(m)) ==>
      calls[c].op.Get? && TookIt(heap, m, c, calls[c].op.name)
  }

  ghost predicate PutIt(heap: seq<Obj>, m: Message, name: string) {
    exists o, i :: 0 <= o < |heap| && heap[o].name == name && 0 <= i < |heap[o].put| && heap[o].put[i] == m
  }

  // A call that sent a message put it into the queue it was meant for.
  ghost predicate Deposits(heap: seq<Obj>, calls: seq<Call>) {
    forall c, m :: 0 <= c < |calls| && Finished(calls[c].pc, Sent(m)) ==>
      && calls[c].op.Put? && calls[c].op == Put(calls[c].op.name, m.body, true) && m.id == c
      && PutIt(heap, m, calls[c].op.name)
  }

  // Histories only grow.
  ghost predicate Grows(heap: seq<Obj>, heap': seq<Obj>) {
    && |heap| <= |heap'|
    && (forall o :: 0 <= o < |heap| ==>
          heap'[o].name == heap[o].name && heap[o].taken <= heap'[o].taken && heap[o].put <= heap'[o].put)
  }

  lemma GrowingKeepsTaken(heap: seq<Obj>, heap': seq<Obj>, m: Message, c: nat, name: string)
    requires Grows(heap, heap')
    ensures TookIt(heap, m, c, name) ==> TookIt(heap', m, c, name)
    ensures PutIt(heap, m, name) ==> PutIt(heap', m, name)
  {
    if o, i :| 0 <= o < |heap| && heap[o].name == name && 0 <= i < |heap[o].taken| && heap[o].taken[i] == Taken(m, c) {
      assert heap'[o].taken[i] == Taken(m, c);
    }
    if o, i :| 0 <= o < |heap| && heap[o].name == name && 0 <= i < |heap[o].put| && heap[o].put[i] == m {
      assert heap'[o].put[i] == m;
    }
  }

  lemma StepGrows(s: State, e: Step)
    requires Enabled(s, e)
    ensures Grows(s.heap, Act(s, e).heap)
  {
  }

  lemma MoverReceipt(s: State, e: Step, m: Message)
    requires Enabled(s, e) && AllSound(s)
    requires Finished(Act(s, e).calls[Mover(s, e)].pc, Received(m))
    ensures Mover(s, e) < |s.calls|
    ensures var c := Mover(s, e);
            || Finished(s.calls[c].pc, Received(m))
            || (s.calls[c].op.Get? && TookIt(Act(s, e).heap, m, c, s.calls[c].op.name))
  {
    var c := Mover(s, e);
    var s' := Act(s, e);
    if s.calls[c].pc.InQ? {
      var o := s.calls[c].pc.o;
      var taken := s.heap[o].taken;
      assert Sound(s.heap, s.table, s.calls[c]) && s'.heap[o].name == s.heap[o].name;
      assert s'.heap[o].taken[|taken|] == Taken(m, c);
    }
  }

  lemma MoverDeposit(s: State, e: Step, m: Message)
    requires Enabled(s, e) && AllSound(s)
    requires Finished(Act(s, e).calls[Mover(s, e)].pc, Sent(m))
    ensures Mover(s, e) < |s.calls|
    ensures var c := Mover(s, e);
            || Finished(s.calls[c].pc, Sent(m))
            || (s.calls[c].op.Put? && s.calls[c].op == Put(s.calls[c].op.name, m.body, true) && m.id == c
                && PutIt(Act(s, e).heap, m, s.calls[c].op.name))
  {
    var c := Mover(s, e);
    var s' := Act(s, e);
    if s.calls[c].pc.InQ? {
      var o := s.calls[c].pc.o;
      var put := s.heap[o].put;
      assert Sound(s.heap, s.table, s.calls[c]) && s'.heap[o].name == s.heap[o].name;
      assert s'.heap[o].put[|put|] == m;
    }
  }

  lemma StepKeepsReceipts(s: State, e: Step)
    requires Receipts(s.heap, s.calls) && Deposits(s.heap, s.calls) && Enabled(s, e) && AllSound(s)
    ensures Receipts(Act(s, e).heap, Act(s, e).calls) && Deposits(Act(s, e).heap, Act(s, e).calls)
  {
    hide Act, Enabled, Grows, TookIt, PutIt, Finished, AllSound;
    StepFrame(s, e);
    StepGrows(s, e);
    var s', c := Act(s, e), Mover(s, e);
    forall d, m | 0 <= d < |s'.calls| && Finished(s'.calls[d].pc, Received(m))
      ensures s'.calls[d].op.Get? && TookIt(s'.heap, m, d, s'.calls[d].op.name)
    {
      if d == c {
        MoverReceipt(s, e, m);
      }
      if Finished(s.calls[d].pc, Received(m)) {
        GrowingKeepsTaken(s.heap, s'.heap, m, d, s.calls[d].op.name);
      }
    }
    forall d, m | 0 <= d < |s'.calls| && Finished(s'.calls[d].pc, Sent(m))
      ensures s'.calls[d].op.Put? && s'.calls[d].op == Put(s'.calls[d].op.name, m.body, true) && m.id == d
      ensures PutIt(s'.heap, m, s'.calls[d].op.name)
    {
      if d == c {
        MoverDeposit(s, e, m);
      }
      if Finished(s.calls[d].pc, Sent(m)) {
        GrowingKeepsTaken(s.heap, s'.heap, m, d, s.calls[d].op.name);
      }
    }
  }

  // Only a Put that gets through adds to what was put, under its own id.
  lemma StepPuts(s: State, e: Step)
    requires Enabled(s, e)
    ensures var s' := Act(s, e);
            && (forall o :: |s.heap| <= o < |s'.heap| ==> s'.heap[o].put == [])
            && (forall o :: 0 <= o < |s.heap| ==>
                  || s'.heap[o].put == s.heap[o].put
                  || (e.Move? && s.calls[e.c].pc == InQ(o)
                      && exists m: Message :: m.id == e.c && s'.heap[o].put == s.heap[o].put + [m]
                                     && Finished(s'.calls[e.c].pc, Sent(m)) && s.calls[e.c].op.Put?
                                     && s.calls[e.c].op.body == m.body && s.calls[e.c].op.idOk))
            && (forall r :: Mover(s, e) < |s.calls| && Finished(s.calls[Mover(s, e)].pc, r) ==>
                  Finished(s'.calls[Mover(s, e)].pc, r))
  {
    var s' := Act(s, e);
    if e.Move? && s.calls[e.c].pc.InQ? && s.calls[e.c].op.Put? && s.calls[e.c].op.idOk {
      var o := s.calls[e.c].pc.o;
      var m := Message(e.c, s.calls[e.c].op.body);
      assert s'.heap[o].put == s.heap[o].put + [m] && Finished(s'.calls[e.c].pc, Sent(m));
    }
  }

  lemma StepKeepsOrigins(s: State, e: Step)
    requires Origins(s.heap, s.calls) && Enabled(s, e) && AllSound(s)
    ensures Origins(Act(s, e).heap, Act(s, e).calls)
  {
    hide Act, Enabled, Finished;
    StepFrame(s, e);
    StepPuts(s, e);
    var s' := Act(s, e);
    if o :| 0 <= o < |s.heap| && s'.heap[o].put != s.heap[o].put {
      NotYetSent(s, e.c, o);
      OnePut(s, e, o);
      assert Sound(s.heap, s.table, s.calls[e.c]);
    }
  }

  lemma NotYetSent(s: State, c: nat, o: nat)
    requires c < |s.calls| && s.calls[c].pc == InQ(o) && Origins(s.heap, s.calls)
    ensures forall p, i :: 0 <= p < |s.heap| && 0 <= i < |s.heap[p].put| ==> s.heap[p].put[i].id != c
  {
  }

  lemma OnePut(s: State, e: Step, o: nat)
    requires Enabled(s, e) && o < |s.heap| && Act(s, e).heap[o].put != s.heap[o].put
    ensures e.Move? && Act(s, e).heap == s.heap[o := Act(s, e).heap[o]]
  {
  }

  // ---- Deadlock ----

  // The next step of a call that waits for nobody.
  lemma Unblocked(s: State, c: nat) returns (e: Step)
    requires AllSound(s) && c < |s.calls| && !s.calls[c].pc.Returned?
    requires !s.calls[c].pc.WaitB? && !s.calls[c].pc.WaitQ? && !s.calls[c].pc.ScanAt?
    ensures Enabled(s, e) && !e.Invoke?
  {
    assert Sound(s.heap, s.table, s.calls[c]);
    var pc := s.calls[c].pc;
    if pc.Scan? && pc.todo != {} {
      var n :| n in pc.todo;
      e := Visit(c, n);
    } else {
      e := Move(c);
    }
  }

  predicate Blockable(pc: Pc) {
    pc.WaitB? || pc.WaitQ? || pc.ScanAt? || pc.Returned?
  }

  // As long as a call is unfinished, some call can take a step.
  lemma SomeCallCanStep(s: State, c: nat) returns (e: Step)
    requires AllSound(s)
    requires c < |s.calls| && !s.calls[c].pc.Returned?
    ensures Enabled(s, e) && !e.Invoke?
  {
    if d :| 0 <= d < |s.calls| && !Blockable(s.calls[d].pc) {
      e := Unblocked(s, d);
    } else if d :| 0 <= d < |s.calls| && s.calls[d].pc.WaitQ? {
      // nobody is inside any queue: the waiting writer gets its lock
      assert Sound(s.heap, s.table, s.calls[d]);
      e := Move(d);
    } else if d :| 0 <= d < |s.calls| && s.calls[d].pc.ScanAt? {
      e := Move(d);
    } else if d :| 0 <= d < |s.calls| && s.calls[d].pc.WaitB? && WritesB(s.calls[d].op) {
      // everybody left is waiting for the broker lock, so nobody holds it
      e := Move(d);
    } else {
      e := Move(c);
    }
  }

  // ---- Every reachable state ----

  ghost predicate Safe(s: State) {
    && AllSound(s) && Exclusion(s) && Ledger(s) && AllCounted(s)
    && Origins(s.heap, s.calls) && Receipts(s.heap, s.calls) && Deposits(s.heap, s.calls)
  }

  lemma StepKeepsSafe(s: State, e: Step)
    requires Safe(s) && Enabled(s, e)
    ensures Safe(Act(s, e))
  {
    hide Act, Enabled, AllSound, Exclusion, Ledger, AllCounted, Origins, Receipts, Deposits;
    StepKeepsSound(s, e);
    StepKeepsExclusion(s, e);
    StepKeepsLedger(s, e);
    StepKeepsCounted(s, e);
    StepKeepsOrigins(s, e);
    StepKeepsReceipts(s, e);
  }

  lemma {:induction false} RunKeepsSafe(s: State, steps: seq<Step>)
    requires Safe(s) && Runs(s, steps)
    ensures Safe(After(s, steps))
    decreases |steps|
  {
    hide Act, Enabled, Safe;
    if |steps| > 0 {
      StepKeepsSafe(s, steps[0]);
      RunKeepsSafe(Act(s, steps[0]), steps[1..]);
    }
  }

  // In every run, on every queue ever created, deleted or not: the depth is the
  // number of messages, what was enqueued was dequeued, drained or is still
  // there, the messages taken by Get calls being the dequeued ones, and messages
  // leave in the order they came.  Each row of a Stats balances too.
  lemma LedgerBalances(steps: seq<Step>)
    requires Runs(INIT, steps)
    ensures var s := After(INIT, steps);
            && (forall o :: 0 <= o < |s.heap| ==>
                  var obj := s.heap[o];
                  && obj.q.depth == |obj.q.messages|
                  && obj.q.enqueued == obj.q.dequeued + obj.q.drained + obj.q.depth
                  && obj.q.dequeued == Gets(obj.taken, s.calls)
                  && obj.put == Messages(obj.taken) + obj.q.messages)
            && (forall c, row ::
                  0 <= c < |s.calls| && s.calls[c].pc.Returned? && s.calls[c].pc.res.Rows? ==>
                  row in s.calls[c].pc.res.rows ==> RowBalanced(row))
  {
    RunKeepsSafe(INIT, steps);
    var s := After(INIT, steps);
    forall o | 0 <= o < |s.heap|
      ensures |s.heap[o].put| == |s.heap[o].taken| + |s.heap[o].q.messages| && Balanced(s.heap[o])
      ensures Counted(s.heap[o], s.calls)
    {
    }
    forall c, row | 0 <= c < |s.calls| && s.calls[c].pc.Returned? && s.calls[c].pc.res.Rows?
                    && row in s.calls[c].pc.res.rows
      ensures RowBalanced(row)
    {
      var i :| 0 <= i < |s.calls[c].pc.res.rows| && s.calls[c].pc.res.rows[i] == row;
      assert RowsOf(s.calls[c].pc)[i] == row;
    }
  }

  // In every run, no two calls receive the same message, and a message that is
  // received was sent by the call it is named after.
  lemma DeliveredAtMostOnce(steps: seq<Step>, c: nat, d: nat, m: Message)
    requires Runs(INIT, steps)
    requires var s := After(INIT, steps);
             c < |s.calls| && d < |s.calls|
             && s.calls[c].pc == Returned(Received(m)) && s.calls[d].pc == Returned(Received(m))
    ensures c == d
    ensures var s := After(INIT, steps); m.id < |s.calls| && Finished(s.calls[m.id].pc, Sent(m))
  {
    RunKeepsSafe(INIT, steps);
    var s := After(INIT, steps);
    assert TookIt(s.heap, m, c, s.calls[c].op.name) && TookIt(s.heap, m, d, s.calls[d].op.name);
    var o, i :| 0 <= o < |s.heap| && 0 <= i < |s.heap[o].taken| && s.heap[o].taken[i] == Taken(m, c);
    var p, j :| 0 <= p < |s.heap| && 0 <= j < |s.heap[p].taken| && s.heap[p].taken[j] == Taken(m, d);
    assert Balanced(s.heap[o]) && s.heap[o].put[i] == m;
    assert Balanced(s.heap[p]) && s.heap[p].put[j] == m;
  }

  // In every run, what a Get receives is what some Put with the same queue's name
  // was given, under that Put's own identity.
  lemma ReceivedWasPut(steps: seq<Step>, c: nat, m: Message)
    requires Runs(INIT, steps) && c < |After(INIT, steps).calls|
    requires After(INIT, steps).calls[c].pc == Returned(Received(m))
    ensures var calls := After(INIT, steps).calls;
            calls[c].op.Get? && m.id < |calls| && calls[m.id].op == Put(calls[c].op.name, m.body, true)
  {
    RunKeepsSafe(INIT, steps);
    var s := After(INIT, steps);
    assert TookIt(s.heap, m, c, s.calls[c].op.name);
    var o, i :| 0 <= o < |s.heap| && s.heap[o].name == s.calls[c].op.name
                && 0 <= i < |s.heap[o].taken| && s.heap[o].taken[i] == Taken(m, c);
    assert Balanced(s.heap[o]) && s.heap[o].put[i] == m;
  }

  // In every run, the message of a Put that succeeded has the body that Put was
  // given, and is in a queue of that name still or was taken out of it.
  lemma SentIsKept(steps: seq<Step>, c: nat, m: Message)
    requires Runs(INIT, steps) && c < |After(INIT, steps).calls|
    requires After(INIT, steps).calls[c].pc == Returned(Sent(m))
    ensures var s := After(INIT, steps);
            && s.calls[c].op.Put? && s.calls[c].op == Put(s.calls[c].op.name, m.body, true) && m.id == c
            && exists o :: 0 <= o < |s.heap| && s.heap[o].name == s.calls[c].op.name
                           && (m in s.heap[o].q.messages || m in Messages(s.heap[o].taken))
  {
    RunKeepsSafe(INIT, steps);
    var s := After(INIT, steps);
    assert PutIt(s.heap, m, s.calls[c].op.name);
    var o, i :| 0 <= o < |s.heap| && s.heap[o].name == s.calls[c].op.name
                && 0 <= i < |s.heap[o].put| && s.heap[o].put[i] == m;
    assert Balanced(s.heap[o]);
  }

  // In every reachable state with an unfinished call, some call can step.
  lemma BrokerNeverDeadlocks(steps: seq<Step>, c: nat) returns (e: Step)
    requires Runs(INIT, steps)
    requires c < |After(INIT, steps).calls| && !After(INIT, steps).calls[c].pc.Returned?
    ensures Enabled(After(INIT, steps), e) && !e.Invoke?
  {
    RunKeepsSafe(INIT, steps);
    e := SomeCallCanStep(After(INIT, steps), c);
  }
}
