/** When the rows of a Stats call are the queues of one state: exactly when every
    queue is there as it was when its row was read.  And a run in which that never
    is so: one queue as it was before a Put to it, another as it was after a later
    Put. */
module StatsSnapshot {
  import opened Wrappers
  import opened MemQ
  import opened BrokerSteps
  import opened BrokerSafety
  import opened StatsRows

  // The rows are the queues of this very state.
  ghost predicate Snapshot(s: State, rows: seq<Row>) {
    forall row :: row in rows ==>
      && row.name in s.table && s.table[row.name] < |s.heap|
      && Reports(row, s.heap[s.table[row.name]].q)
  }

  // ---- When the rows are a snapshot ----

  // Nothing more has been put into a queue, or taken out of it.
  predicate SameHistory(obj: Obj, obj': Obj) {
    |obj'.put| == |obj.put| && |obj'.taken| == |obj.taken|
  }

  ghost predicate HistoryGrows(heap: seq<Obj>, heap': seq<Obj>) {
    |heap| <= |heap'| && forall o :: 0 <= o < |heap| ==> ObjGrows(heap[o], heap'[o])
  }

  // Histories grow, and a row stays the same as long as they do not.
  ghost predicate ObjGrows(obj: Obj, obj': Obj) {
    && |obj.put| <= |obj'.put| && |obj.taken| <= |obj'.taken|
    && (SameHistory(obj, obj') ==> forall row :: Reports(row, obj'.q) <==> Reports(row, obj.q))
  }

  lemma WorkGrows(obj: Obj, c: nat, op: Op, alive: bool)
    requires Balanced(obj) && (op.Put? || op.Get? || op.Drain?)
    ensures ObjGrows(obj, Worked(obj, c, op, alive))
  {
  }

  lemma StepHistoryGrows(s: State, e: Step)
    requires Safe(s) && Enabled(s, e)
    ensures HistoryGrows(s.heap, Act(s, e).heap)
  {
    SafeBalanced(s);
    hide Worked, Safe, Balanced, Alive, GrantsB, GrantsQ, OnQueue, Reports;
    if e.Move? && s.calls[e.c].pc.InQ? {
      var o := s.calls[e.c].pc.o;
      WorkGrows(s.heap[o], e.c, s.calls[e.c].op, Alive(s, o));
    }
  }

  lemma SafeBalanced(s: State)
    requires Safe(s)
    ensures forall o :: 0 <= o < |s.heap| ==> Balanced(s.heap[o])
  {
    hide AllSound, Exclusion, AllCounted, Origins, Receipts, Deposits, Balanced;
  }

  lemma GrowsTwice(a: seq<Obj>, b: seq<Obj>, c: seq<Obj>)
    requires HistoryGrows(a, b) && HistoryGrows(b, c)
    ensures HistoryGrows(a, c)
  {
    forall o | 0 <= o < |a| ensures ObjGrows(a[o], c[o]) {
      assert ObjGrows(a[o], b[o]) && ObjGrows(b[o], c[o]);
    }
  }

  lemma {:induction false} RunHistoryGrows(steps: seq<Step>, k: nat, m: nat)
    requires Runs(INIT, steps) && k <= m <= |steps|
    ensures HistoryGrows(States(INIT, steps)[k].heap, States(INIT, steps)[m].heap)
    decreases m
  {
    var states := States(INIT, steps);
    if k < m {
      RunHistoryGrows(steps, k, m - 1);
      StatesStep(INIT, steps, m - 1);
      InitSafe();
      SafeThroughout(INIT, steps, m - 1);
      StepHistoryGrows(states[m - 1], steps[m - 1]);
      GrowsTwice(states[k].heap, states[m - 1].heap, states[m].heap);
      hide Safe, Act, Enabled, HistoryGrows;
    }
  }

  // A row of one state is still the queue's in another exactly if nothing has
  // been put into the queue or taken out in between.
  lemma RowLastsIff(steps: seq<Step>, k: nat, m: nat, o: nat, row: Row)
    requires Runs(INIT, steps) && k <= |steps| && m <= |steps|
    requires o < |States(INIT, steps)[k].heap| && o < |States(INIT, steps)[m].heap|
    requires Reports(row, States(INIT, steps)[k].heap[o].q)
    ensures var obj, obj' := States(INIT, steps)[k].heap[o], States(INIT, steps)[m].heap[o];
            Reports(row, obj'.q) <==> SameHistory(obj, obj')
  {
    var states := States(INIT, steps);
    var obj, obj' := states[k].heap[o], states[m].heap[o];
    InitSafe();
    SafeThroughout(INIT, steps, k);
    SafeThroughout(INIT, steps, m);
    assert Balanced(obj) && Balanced(obj');
    if k <= m {
      RunHistoryGrows(steps, k, m);
    } else {
      RunHistoryGrows(steps, m, k);
    }
    hide Safe;
  }

  // Row `row` was read in state k, from a queue whose history is as long in m.
  ghost predicate ReadAsIn(states: seq<State>, c: nat, row: Row, k: nat, m: nat)
    requires k < |states| && m < |states|
  {
    && ReadAt(states[k], c, row)
    && var o := states[k].calls[c].pc.o;
       o < |states[m].heap| && SameHistory(states[k].heap[o], states[m].heap[o])
  }

  lemma OneTable(steps: seq<Step>, c: nat, k: nat, m: nat)
    requires Runs(INIT, steps) && c < |After(INIT, steps).calls|
    requires k <= m <= |steps| && Reading(States(INIT, steps)[k], c) && Reading(States(INIT, steps)[m], c)
    ensures States(INIT, steps)[k].table == States(INIT, steps)[m].table
  {
    SeenThroughout(steps, m);
    var states := States(INIT, steps);
    assert Frozen(states, m, c);
    hide AllSeen, HoldsB;
  }

  // In a state of the call, a row it read in another is the queue's exactly if
  // nothing has been put into that queue or taken out in between.
  lemma RowIsCurrentIff(steps: seq<Step>, c: nat, k: nat, m: nat, row: Row)
    requires Runs(INIT, steps) && c < |After(INIT, steps).calls| && After(INIT, steps).calls[c].op.Stats?
    requires k <= |steps| && m <= |steps| && ReadAt(States(INIT, steps)[k], c, row)
    requires Reading(States(INIT, steps)[m], c)
    ensures var s := States(INIT, steps)[m];
            && row.name in s.table && s.table[row.name] < |s.heap|
            && (Reports(row, s.heap[s.table[row.name]].q) <==>
                  ReadAsIn(States(INIT, steps), c, row, k, m))
  {
    var states := States(INIT, steps);
    InitSafe();
    SafeThroughout(INIT, steps, k);
    SafeThroughout(INIT, steps, m);
    ReadersRead(states[k], c, row);
    if k <= m {
      OneTable(steps, c, k, m);
    } else {
      OneTable(steps, c, m, k);
    }
    assert TableOk(states[m].heap, states[m].table);
    var o := states[k].calls[c].pc.o;
    RowLastsIff(steps, k, m, o, row);
    hide Safe, SameHistory, HoldsB, Reports;
  }

  lemma ReadersRead(s: State, c: nat, row: Row)
    requires Safe(s) && ReadAt(s, c, row)
    ensures Reading(s, c)
  {
    assert Sound(s.heap, s.table, s.calls[c]);
  }

  // In every run, a state in which a Stats call holds the broker lock has all the
  // queues as the call reports them if and only if each row was read in a state
  // since which, or until which, nothing was put into its queue or taken out.
  lemma StatsIsSnapshotIff(steps: seq<Step>, c: nat, m: nat)
    requires Runs(INIT, steps) && c < |After(INIT, steps).calls|
    requires After(INIT, steps).calls[c].op.Stats? && After(INIT, steps).calls[c].pc.Returned?
    requires m <= |steps| && Reading(States(INIT, steps)[m], c)
    ensures var res := After(INIT, steps).calls[c].pc.res;
            var states := States(INIT, steps);
            res.Rows? &&
            (Snapshot(states[m], res.rows) <==>
             forall row :: row in res.rows ==> exists k :: 0 <= k < |states| && ReadAsIn(states, c, row, k, m))
  {
    StatsReportsEachQueue(steps, c);
    var states := States(INIT, steps);
    var rows := After(INIT, steps).calls[c].pc.res.rows;
    hide ReadAt, Reports, Reading, Runs, After;
    forall row, k | row in rows && 0 <= k < |states| && ReadAt(states[k], c, row)
      ensures && row.name in states[m].table && states[m].table[row.name] < |states[m].heap|
              && (Reports(row, states[m].heap[states[m].table[row.name]].q) <==>
                    ReadAsIn(states, c, row, k, m))
    {
      RowIsCurrentIff(steps, c, k, m, row);
    }
    hide SameHistory;
    if Snapshot(states[m], rows) {
      forall row | row in rows ensures exists k :: 0 <= k < |states| && ReadAsIn(states, c, row, k, m) {
        var k :| 0 <= k < |states| && ReadAt(states[k], c, row);
        assert ReadAsIn(states, c, row, k, m);
      }
    }
  }

  // Nothing is put into a queue or taken out while the call reads.
  ghost predicate Undisturbed(states: seq<State>, c: nat) {
    forall k, m, o ::
      0 <= k < |states| && 0 <= m < |states| && Reading(states[k], c) && Reading(states[m], c) ==>
        0 <= o < |states[k].heap| && o < |states[m].heap| ==> SameHistory(states[k].heap[o], states[m].heap[o])
  }

  // Then the rows are a snapshot of each state in which it does.
  lemma UndisturbedStatsIsSnapshot(steps: seq<Step>, c: nat, m: nat)
    requires Runs(INIT, steps) && c < |After(INIT, steps).calls|
    requires After(INIT, steps).calls[c].op.Stats? && After(INIT, steps).calls[c].pc.Returned?
    requires Undisturbed(States(INIT, steps), c)
    requires m <= |steps| && Reading(States(INIT, steps)[m], c)
    ensures After(INIT, steps).calls[c].pc.res.Rows?
    ensures Snapshot(States(INIT, steps)[m], After(INIT, steps).calls[c].pc.res.rows)
  {
    StatsReportsEachQueue(steps, c);
    StatsIsSnapshotIff(steps, c, m);
    var states := States(INIT, steps);
    var rows := After(INIT, steps).calls[c].pc.res.rows;
    hide *;
    forall row | row in rows ensures exists k :: 0 <= k < |states| && ReadAsIn(states, c, row, k, m) {
      var k :| 0 <= k < |states| && ReadAt(states[k], c, row);
      UndisturbedRow(steps, c, k, m, row);
    }
  }

  lemma UndisturbedRow(steps: seq<Step>, c: nat, k: nat, m: nat, row: Row)
    requires Runs(INIT, steps) && c < |After(INIT, steps).calls|
    requires k <= |steps| && m <= |steps| && ReadAt(States(INIT, steps)[k], c, row)
    requires Reading(States(INIT, steps)[m], c) && Undisturbed(States(INIT, steps), c)
    ensures ReadAsIn(States(INIT, steps), c, row, k, m)
  {
    var states := States(INIT, steps);
    InitSafe();
    SafeThroughout(INIT, steps, k);
    ReadersRead(states[k], c, row);
    SamePlace(steps, c, k, m, row);
    hide Safe, SameHistory, HoldsB, RowOf, Runs, After, Reading;
  }

  lemma SamePlace(steps: seq<Step>, c: nat, k: nat, m: nat, row: Row)
    requires Runs(INIT, steps) && c < |After(INIT, steps).calls|
    requires k <= |steps| && m <= |steps| && ReadAt(States(INIT, steps)[k], c, row)
    requires Reading(States(INIT, steps)[m], c) && Safe(States(INIT, steps)[k])
    ensures States(INIT, steps)[k].calls[c].pc.o < |States(INIT, steps)[m].heap|
  {
    var states := States(INIT, steps);
    ReadersRead(states[k], c, row);
    if k <= m {
      OneTable(steps, c, k, m);
    } else {
      OneTable(steps, c, m, k);
    }
    InitSafe();
    SafeThroughout(INIT, steps, m);
    SoundTable(states[m]);
    hide Safe, HoldsB, RowOf;
  }

  // ---- Calls that run without a break ----

  lemma Next(s: State, e: Step, rest: seq<Step>)
    requires Enabled(s, e) && Runs(Act(s, e), rest)
    ensures Runs(s, [e] + rest) && After(s, [e] + rest) == After(Act(s, e), rest)
  {
    hide Act, Enabled;
    assert ([e] + rest)[1..] == rest;
  }

  lemma Nothing(s: State)
    ensures Runs(s, []) && After(s, []) == s
  {
  }

  function Calling(s: State, k: Call, now: nat): State {
    s.(calls := s.calls + [k], now := now)
  }

  lemma LastGoto(s: State, k: Call, now: nat, pc: Pc)
    ensures Goto(Calling(s, k, now), |s.calls|, pc) == Calling(s, k.(pc := pc), now + 1)
  {
  }

  // Nobody holds or waits for a lock, but for Stats calls between two queues.
  predicate Quiet(s: State) {
    forall d :: 0 <= d < |s.calls| ==>
      s.calls[d].pc.Returned? || (s.calls[d].op.Stats? && s.calls[d].pc.Scan?)
  }

  predicate AllReturned(s: State) {
    forall d :: 0 <= d < |s.calls| ==> s.calls[d].pc.Returned?
  }

  // A call gets as far as inside the broker lock.
  lemma Enters(s: State, op: Op, rest: seq<Step>)
    requires if WritesB(op) then AllReturned(s) else Quiet(s)
    requires Runs(Calling(s, Call(op, InB, s.now, None), s.now + 3), rest)
    ensures var c := |s.calls|;
            var steps := [Invoke(op)] + ([Move(c)] + ([Move(c)] + rest));
            && Runs(s, steps)
            && After(s, steps) == After(Calling(s, Call(op, InB, s.now, None), s.now + 3), rest)
  {
    hide Runs, After, Inside, Worked, RowOf;
    var c := |s.calls|;
    var k := Call(op, Start, s.now, None);
    var s0 := Calling(s, k, s.now + 1);
    var s1 := Calling(s, k.(pc := WaitB), s.now + 2);
    var s2 := Calling(s, k.(pc := InB), s.now + 3);
    LastGoto(s, k, s.now + 1, WaitB);
    LastGoto(s, k.(pc := WaitB), s.now + 2, InB);
    assert Act(s, Invoke(op)) == s0 && Act(s0, Move(c)) == s1;
    assert Enabled(s1, Move(c)) && Act(s1, Move(c)) == s2;
    hide Act, Enabled, Calling;
    Next(s1, Move(c), rest);
    Next(s0, Move(c), [Move(c)] + rest);
    Next(s, Invoke(op), [Move(c)] + ([Move(c)] + rest));
  }

  // A call that has left its last lock returns.
  lemma Returns(s: State, k: Call, now: nat, res: Result, held: Option<nat>)
    requires k.pc == Leave(res, held)
    ensures var t := Calling(s, k, now);
            && Runs(t, [Move(|s.calls|)])
            && After(t, [Move(|s.calls|)]) == Calling(s, k.(pc := Returned(res), resp := Some(now)), now + 1)
  {
    var t, c := Calling(s, k, now), |s.calls|;
    var t' := Calling(s, k.(pc := Returned(res), resp := Some(now)), now + 1);
    assert Enabled(t, Move(c)) && Act(t, Move(c)) == t';
    Nothing(t');
    hide Act, Enabled, Calling, Runs, After;
    Next(t, Move(c), []);
    assert [Move(c)] + [] == [Move(c)];
  }

  lemma CreateRuns(s: State, name: string) returns (steps: seq<Step>)
    requires AllReturned(s) && name !in s.table
    ensures Runs(s, steps)
    ensures var t := After(s, steps);
            && AllReturned(t) && t.heap == s.heap + [NewObj(name)] && t.table == s.table[name := |s.heap|]
            && |t.calls| == |s.calls| + 1
  {
    var c, op := |s.calls|, Create(name);
    var k := Call(op, InB, s.now, None);
    var made := s.(heap := s.heap + [NewObj(name)], table := s.table[name := |s.heap|]);
    var s3, k4 := Calling(s, k, s.now + 3), k.(pc := Leave(Done, None));
    var s4 := Calling(made, k4, s.now + 4);
    assert Enabled(s3, Move(c)) && Act(s3, Move(c)) == s4;
    Returns(made, k4, s.now + 4, Done, None);
    hide Act, Enabled, Calling, Runs, After;
    Next(s3, Move(c), [Move(c)]);
    Enters(s, op, [Move(c)] + [Move(c)]);
    steps := [Invoke(op)] + ([Move(c)] + ([Move(c)] + ([Move(c)] + [Move(c)])));
    Called(made, k4.(pc := Returned(Done), resp := Some(s.now + 4)), s.now + 5);
  }

  lemma Called(s: State, k: Call, now: nat)
    requires k.pc.Returned?
    ensures var t := Calling(s, k, now);
            && t.heap == s.heap && t.table == s.table && t.calls == s.calls + [k]
            && (AllReturned(s) ==> AllReturned(t)) && (Quiet(s) ==> Quiet(t))
  {
  }

  lemma PutRuns(s: State, name: string, o: nat) returns (steps: seq<Step>)
    requires Quiet(s) && name in s.table && s.table[name] == o < |s.heap| && s.heap[o].name == name
    ensures Runs(s, steps)
    ensures var t := After(s, steps);
            && Quiet(t) && t.table == s.table
            && t.heap == s.heap[o := Worked(s.heap[o], |s.calls|, Put(name, "", true), true)]
            && |t.calls| == |s.calls| + 1 && forall d :: 0 <= d < |s.calls| ==> t.calls[d] == s.calls[d]
  {
    var c, op := |s.calls|, Put(name, "", true);
    var k := Call(op, InB, s.now, None);
    var rest := [Move(c)] + ([Move(c)] + ([Move(c)] + ([Move(c)] + [Move(c)])));
    PutWorks(s, name, o, k);
    Enters(s, op, rest);
    steps := [Invoke(op)] + ([Move(c)] + ([Move(c)] + rest));
  }

  lemma PutWorks(s: State, name: string, o: nat, k: Call)
    requires Quiet(s) && name in s.table && s.table[name] == o < |s.heap| && s.heap[o].name == name
    requires k == Call(Put(name, "", true), InB, s.now, None)
    ensures var c := |s.calls|;
            var s3 := Calling(s, k, s.now + 3);
            var rest := [Move(c)] + ([Move(c)] + ([Move(c)] + ([Move(c)] + [Move(c)])));
            && Runs(s3, rest)
            && var t := After(s3, rest);
               && Quiet(t) && t.table == s.table && t.heap == s.heap[o := Worked(s.heap[o], c, k.op, true)]
               && |t.calls| == |s.calls| + 1 && forall d :: 0 <= d < |s.calls| ==> t.calls[d] == s.calls[d]
  {
    hide Runs, After, Worked;
    var c := |s.calls|;
    var s3 := Calling(s, k, s.now + 3);
    var s4 := Calling(s, k.(pc := Have(o)), s.now + 4);
    var s5 := Calling(s, k.(pc := WaitQ(o)), s.now + 5);
    var s6 := Calling(s, k.(pc := InQ(o)), s.now + 6);
    var res := Sent(Message(c, ""));
    var done := s.(heap := s.heap[o := Worked(s.heap[o], c, k.op, true)]);
    var k7 := k.(pc := Leave(res, Some(o)));
    var s7 := Calling(done, k7, s.now + 7);
    assert Enabled(s3, Move(c)) && Act(s3, Move(c)) == s4;
    assert Enabled(s4, Move(c)) && Act(s4, Move(c)) == s5;
    assert Enabled(s5, Move(c)) && Act(s5, Move(c)) == s6;
    assert Enabled(s6, Move(c)) && Act(s6, Move(c)) == s7;
    Returns(done, k7, s.now + 7, res, Some(o));
    assert Quiet(done);
    hide Act, Enabled, Calling, Quiet;
    Next(s6, Move(c), [Move(c)]);
    Next(s5, Move(c), [Move(c)] + [Move(c)]);
    Next(s4, Move(c), [Move(c)] + ([Move(c)] + [Move(c)]));
    Next(s3, Move(c), [Move(c)] + ([Move(c)] + ([Move(c)] + [Move(c)])));
    Called(done, k7.(pc := Returned(res), resp := Some(s.now + 7)), s.now + 8);
  }

  lemma StatsBegins(s: State) returns (steps: seq<Step>)
    requires Quiet(s)
    ensures Runs(s, steps)
    ensures var t := After(s, steps);
            && Quiet(t) && t.heap == s.heap && t.table == s.table && |t.calls| == |s.calls| + 1
            && t.calls[|s.calls|].op == MemQ.Op.Stats && t.calls[|s.calls|].pc == Scan(s.table.Keys, [])
  {
    var c := |s.calls|;
    var k := Call(MemQ.Op.Stats, InB, s.now, None);
    var s3 := Calling(s, k, s.now + 3);
    var s4 := Calling(s, k.(pc := Scan(s.table.Keys, [])), s.now + 4);
    assert Enabled(s3, Move(c)) && Act(s3, Move(c)) == s4 && Quiet(s4);
    Nothing(s4);
    hide Act, Enabled, Runs, After;
    Next(s3, Move(c), []);
    Enters(s, MemQ.Op.Stats, [Move(c)] + []);
    steps := [Invoke(MemQ.Op.Stats)] + ([Move(c)] + ([Move(c)] + ([Move(c)] + [])));
  }

  predicate Scanning(s: State, c: nat, todo: set<string>, rows: seq<Row>) {
    Quiet(s) && c < |s.calls| && s.calls[c].op.Stats? && s.calls[c].pc == Scan(todo, rows)
  }

  lemma ScanRuns(s: State, c: nat, todo: set<string>, rows: seq<Row>, n: string, o: nat) returns (steps: seq<Step>)
    requires Scanning(s, c, todo, rows) && n in todo && n in s.table && s.table[n] == o < |s.heap|
    ensures Runs(s, steps)
    ensures var t := After(s, steps);
            && Scanning(t, c, todo - {n}, rows + [RowOf(n, s.heap[o].q)])
            && t.heap == s.heap && t.table == s.table && |t.calls| == |s.calls|
  {
    var s1 := Goto(s, c, ScanAt(n, o, todo - {n}, rows));
    var s2 := Goto(s1, c, ScanIn(n, o, todo - {n}, rows));
    var s3 := Goto(s2, c, Scan(todo - {n}, rows + [RowOf(n, s.heap[o].q)]));
    assert Enabled(s, Visit(c, n)) && Act(s, Visit(c, n)) == s1;
    assert Enabled(s1, Move(c)) && Act(s1, Move(c)) == s2;
    assert Enabled(s2, Move(c)) && Act(s2, Move(c)) == s3;
    Nothing(s3);
    hide Act, Enabled, Runs, After, RowOf;
    Next(s2, Move(c), []);
    Next(s1, Move(c), [Move(c)] + []);
    Next(s, Visit(c, n), [Move(c)] + ([Move(c)] + []));
    steps := [Visit(c, n)] + ([Move(c)] + ([Move(c)] + []));
  }

  lemma StatsEnds(s: State, c: nat, rows: seq<Row>) returns (steps: seq<Step>)
    requires Scanning(s, c, {}, rows)
    ensures Runs(s, steps)
    ensures var t := After(s, steps);
            && c < |t.calls| && t.calls[c].op.Stats? && t.calls[c].pc == Returned(Rows(rows))
            && t.heap == s.heap && t.table == s.table
  {
    var s1 := Goto(s, c, Leave(Rows(rows), None));
    assert Enabled(s, Move(c)) && Act(s, Move(c)) == s1 && Enabled(s1, Move(c));
    var s2 := Act(s1, Move(c));
    Nothing(s2);
    Next(s1, Move(c), []);
    Next(s, Move(c), [Move(c)] + []);
    steps := [Move(c)] + ([Move(c)] + []);
    hide Runs, After, Enabled;
  }

  // ---- Histories only grow ----

  lemma {:induction false} PutsOnlyGrow(s: State, steps: seq<Step>, m: nat, n: nat)
    requires Runs(s, steps) && m <= n <= |steps|
    ensures PutsGrow(States(s, steps)[m].heap, States(s, steps)[n].heap)
    decreases n
  {
    if m < n {
      PutsOnlyGrow(s, steps, m, n - 1);
      StatesStep(s, steps, n - 1);
      StepFrame(States(s, steps)[n - 1], steps[n - 1]);
      StepPuts(States(s, steps)[n - 1], steps[n - 1]);
      hide Act, Enabled, Finished;
    }
  }

  ghost predicate PutsGrow(heap: seq<Obj>, heap': seq<Obj>) {
    Extends(heap, heap') && forall o :: 0 <= o < |heap| ==> |heap[o].put| <= |heap'[o].put|
  }

  // ---- The run ----

  const ROWS := [Row("a", 0, 0, 0, 0), Row("b", 1, 1, 0, 0)]

  // Two queues are created, and a Stats call reads the first.
  lemma FirstHalf() returns (steps: seq<Step>)
    ensures Runs(INIT, steps)
    ensures var s := After(INIT, steps);
            && s.heap == [NewObj("a"), NewObj("b")] && s.table == map["a" := 0, "b" := 1]
            && Scanning(s, 2, {"b"}, [ROWS[0]])
  {
    hide Runs, After, Quiet;
    Nothing(INIT);
    assert AllReturned(INIT);
    var createA := CreateRuns(INIT, "a");
    var s1 := After(INIT, createA);
    var createB := CreateRuns(s1, "b");
    var s2 := After(s1, createB);
    RunsOn(INIT, createA, createB);
    ReturnedIsQuiet(s2);
    var stats := StatsBegins(s2);
    var s3 := After(s2, stats);
    RunsOn(INIT, createA + createB, stats);
    assert s3.table.Keys == {"a", "b"};
    var scanA := ScanRuns(s3, 2, {"a", "b"}, [], "a", 0);
    RunsOn(INIT, createA + createB + stats, scanA);
    steps := createA + createB + stats + scanA;
    assert {"a", "b"} - {"a"} == {"b"};
    assert [] + [RowOf("a", NEW_QUEUE)] == [ROWS[0]];
  }

  lemma ReturnedIsQuiet(s: State)
    requires AllReturned(s)
    ensures Quiet(s)
  {
  }

  // Then a message is put into the first queue, and one into the second; and only
  // then the Stats call reads the second.
  lemma SecondHalf(s: State) returns (putA: seq<Step>, rest: seq<Step>)
    requires s.heap == [NewObj("a"), NewObj("b")] && s.table == map["a" := 0, "b" := 1]
    requires Scanning(s, 2, {"b"}, [ROWS[0]])
    ensures Runs(s, putA) && Runs(After(s, putA), rest)
    ensures var m := After(s, putA);
            && |m.heap| == 2 && m.heap[0].name == "a" && m.heap[1].name == "b"
            && |m.heap[0].put| == 1 && m.heap[1].put == []
    ensures var t := After(After(s, putA), rest);
            && |t.heap| == 2 && t.heap[0].name == "a" && t.heap[1].name == "b"
            && 2 < |t.calls| && t.calls[2].op.Stats? && t.calls[2].pc == Returned(Rows(ROWS))
  {
    hide Runs, After, Quiet;
    putA := PutRuns(s, "a", 0);
    var m := After(s, putA);
    var putB := PutRuns(m, "b", 1);
    var s2 := After(m, putB);
    assert s2.heap[1].q == QueueState(1, 1, 0, 0, [Message(|m.calls|, "")]);
    assert RowOf("b", s2.heap[1].q) == ROWS[1];
    var scanB := ScanRuns(s2, 2, {"b"}, [ROWS[0]], "b", 1);
    var s3 := After(s2, scanB);
    assert {"b"} - {"b"} == {} && [ROWS[0]] + [ROWS[1]] == ROWS;
    var end := StatsEnds(s3, 2, ROWS);
    RunsOn(m, putB, scanB);
    RunsOn(m, putB + scanB, end);
    rest := putB + scanB + end;
  }

  // What rules out a snapshot, in a state before and in one after the middle.
  lemma NoSnapshotBefore(s: State, m: State)
    requires Safe(s) && PutsGrow(s.heap, m.heap)
    requires |m.heap| == 2 && m.heap[0].name == "a" && m.heap[1].name == "b" && m.heap[1].put == []
    ensures !Snapshot(s, ROWS)
  {
    hide AllSound, Exclusion, AllCounted, Origins, Receipts, Deposits;
    assert TableOk(s.heap, s.table) by {
      SoundTable(s);
    }
    if "b" in s.table && s.table["b"] < |s.heap| {
      assert Balanced(s.heap[s.table["b"]]);
    }
    assert ROWS[1] in ROWS && ROWS[1].name == "b";
  }

  lemma SoundTable(s: State)
    requires Safe(s)
    ensures TableOk(s.heap, s.table)
  {
  }

  lemma NoSnapshotAfter(m: State, s: State, t: State)
    requires Safe(s) && PutsGrow(m.heap, s.heap) && PutsGrow(s.heap, t.heap)
    requires |m.heap| == 2 && m.heap[0].name == "a" && m.heap[1].name == "b" && |m.heap[0].put| == 1
    requires |t.heap| == 2
    ensures !Snapshot(s, ROWS)
  {
    hide AllSound, Exclusion, AllCounted, Origins, Receipts, Deposits;
    assert TableOk(s.heap, s.table) by {
      SoundTable(s);
    }
    if "a" in s.table && s.table["a"] < |s.heap| {
      assert Balanced(s.heap[s.table["a"]]);
    }
    assert ROWS[0] in ROWS && ROWS[0].name == "a";
  }

  // The rows a Stats call returns need not be a snapshot of any state of the run.
  lemma StatsIsNoSnapshot() returns (steps: seq<Step>, c: nat)
    ensures Runs(INIT, steps)
    ensures var t := After(INIT, steps);
            && c < |t.calls| && t.calls[c].op.Stats? && t.calls[c].pc == Returned(Rows(ROWS))
    ensures forall n :: 0 <= n <= |steps| ==> !Snapshot(States(INIT, steps)[n], ROWS)
  {
    hide Runs, After, Snapshot, Safe, PutsGrow;
    var first := FirstHalf();
    var putA, rest := SecondHalf(After(INIT, first));
    RunsOn(INIT, first, putA);
    RunsOn(INIT, first + putA, rest);
    steps, c := first + putA + rest, 2;
    var mid := |first + putA|;
    LastState(INIT, steps);
    InitSafe();
    forall n | 0 <= n <= |steps| ensures !Snapshot(States(INIT, steps)[n], ROWS) {
      SafeThroughout(INIT, steps, n);
      if n <= mid {
        PutsOnlyGrow(INIT, steps, n, mid);
        NoSnapshotBefore(States(INIT, steps)[n], After(INIT, first + putA));
      } else {
        PutsOnlyGrow(INIT, steps, mid, n);
        PutsOnlyGrow(INIT, steps, n, |steps|);
        NoSnapshotAfter(After(INIT, first + putA), States(INIT, steps)[n], After(INIT, steps));
      }
    }
  }

  lemma InitSafe()
    ensures Safe(INIT)
  {
  }
}
