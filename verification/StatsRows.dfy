/** What a Stats call reports.  It locks the queues one by one under the broker's
    read lock: the names are those of the table, which stands still meanwhile, and
    each row is its queue at one moment of the call, but the rows together need
    not be the queues at any moment. */
module StatsRows {
  import opened MemQ
  import opened BrokerSteps
  import opened BrokerSafety

  // ---- The states of a run ----

  ghost function States(s: State, steps: seq<Step>): (r: seq<State>)
    requires Runs(s, steps)
    ensures |r| == |steps| + 1 && r[0] == s
    decreases |steps|
  {
    if |steps| == 0 then [s] else [s] + States(Act(s, steps[0]), steps[1..])
  }

  lemma {:induction false} StatesStep(s: State, steps: seq<Step>, i: nat)
    requires Runs(s, steps) && i < |steps|
    ensures Enabled(States(s, steps)[i], steps[i])
    ensures States(s, steps)[i + 1] == Act(States(s, steps)[i], steps[i])
    decreases |steps|
  {
    hide Act, Enabled;
    if i > 0 {
      StatesStep(Act(s, steps[0]), steps[1..], i - 1);
    }
  }

  lemma {:induction false} RunsOn(s: State, a: seq<Step>, b: seq<Step>)
    requires Runs(s, a) && Runs(After(s, a), b)
    ensures Runs(s, a + b) && After(s, a + b) == After(After(s, a), b)
    ensures States(s, a + b)[|a|] == After(s, a)
    decreases |a|
  {
    hide Act, Enabled;
    if a == [] {
      assert a + b == b;
    } else {
      RunsOn(Act(s, a[0]), a[1..], b);
      assert (a + b)[1..] == a[1..] + b;
    }
  }

  lemma LastState(s: State, steps: seq<Step>)
    requires Runs(s, steps)
    ensures States(s, steps)[|steps|] == After(s, steps)
  {
    RunsOn(s, steps, []);
    assert steps + [] == steps;
  }

  // A property that holds at first and that every step keeps, holds throughout.
  lemma {:induction false} SafeThroughout(s: State, steps: seq<Step>, i: nat)
    requires Safe(s) && Runs(s, steps) && i <= |steps|
    ensures Safe(States(s, steps)[i])
  {
    if i > 0 {
      SafeThroughout(s, steps, i - 1);
      StatesStep(s, steps, i - 1);
      StepKeepsSafe(States(s, steps)[i - 1], steps[i - 1]);
      hide Safe, Act, Enabled;
    }
  }

  // ---- Names ----

  function Names(rows: seq<Row>): set<string> {
    set row | row in rows :: row.name
  }

  ghost predicate DistinctNames(rows: seq<Row>) {
    forall i, j :: 0 <= i < j < |rows| ==> rows[i].name != rows[j].name
  }

  lemma NamesSnoc(rows: seq<Row>, row: Row)
    ensures Names(rows + [row]) == Names(rows) + {row.name}
    ensures DistinctNames(rows) && row.name !in Names(rows) ==> DistinctNames(rows + [row])
  {
    assert forall r :: r in rows + [row] <==> r in rows || r == row;
    assert forall i :: 0 <= i < |rows| ==> rows[i] in rows && rows[i].name in Names(rows);
  }

  // How far a Stats call is through the table: each name is still to come, at
  // hand, or in one row.
  ghost predicate Covers(table: map<string, nat>, call: Call) {
    call.op.Stats? ==>
      match call.pc
      case Scan(todo, rows) => DistinctNames(rows) && todo !! Names(rows) && todo + Names(rows) == table.Keys
      case ScanAt(n, o, todo, rows) => AtHand(table, n, o, todo, rows)
      case ScanIn(n, o, todo, rows) => AtHand(table, n, o, todo, rows)
      case Leave(res, _) => res.Rows? && DistinctNames(res.rows) && Names(res.rows) == table.Keys
      case Returned(res) => res.Rows? && DistinctNames(res.rows)
      case _ => true
  }

  ghost predicate AtHand(table: map<string, nat>, n: string, o: nat, todo: set<string>, rows: seq<Row>) {
    && n in table && table[n] == o && DistinctNames(rows)
    && todo !! Names(rows) && n !in todo && n !in Names(rows) && todo + {n} + Names(rows) == table.Keys
  }

  ghost predicate AllCover(s: State) {
    forall c :: 0 <= c < |s.calls| ==> Covers(s.table, s.calls[c])
  }

  lemma InsideCovers(s: State, c: nat)
    requires c < |s.calls| && s.calls[c].pc.InB? && s.calls[c].op.Stats?
    ensures Covers(Inside(s, c).table, Inside(s, c).calls[c])
  {
    NothingRead(s.table.Keys);
    hide Names, DistinctNames;
  }

  lemma NoStatsCovers(table: map<string, nat>, call: Call)
    requires !call.op.Stats?
    ensures Covers(table, call)
  {
  }

  lemma MoverCovers(s: State, e: Step)
    requires AllSound(s) && AllCover(s) && Enabled(s, e)
    ensures Covers(Act(s, e).table, Act(s, e).calls[Mover(s, e)])
  {
    StepFrame(s, e);
    if e.Invoke? {
    } else if !s.calls[e.c].op.Stats? {
      NoStatsCovers(Act(s, e).table, Act(s, e).calls[e.c]);
      hide Act, Enabled, Covers;
    } else if s.calls[e.c].pc.InB? {
      InsideCovers(s, e.c);
      hide Inside, Covers, AllSound, AllCover;
    } else {
      ScannerCovers(s, e);
    }
  }

  lemma ScannerCovers(s: State, e: Step)
    requires AllSound(s) && AllCover(s) && Enabled(s, e) && !e.Invoke?
    requires s.calls[e.c].op.Stats? && !s.calls[e.c].pc.InB?
    ensures Covers(Act(s, e).table, Act(s, e).calls[e.c])
  {
    var call := s.calls[e.c];
    assert Covers(s.table, call) && Sound(s.heap, s.table, call);
    if call.pc.ScanIn? {
      NamesSnoc(call.pc.rows, RowOf(call.pc.name, s.heap[call.pc.o].q));
    }
    hide GrantsB, GrantsQ, Worked, OnQueue, Alive, DistinctNames, Names, Inside, AllSound, AllCover;
  }

  lemma NothingRead(names: set<string>)
    ensures Names([]) == {} && DistinctNames([])
  {
  }

  lemma StepKeepsCovers(s: State, e: Step)
    requires AllSound(s) && Exclusion(s) && AllCover(s) && Enabled(s, e)
    ensures AllCover(Act(s, e))
  {
    var s' := Act(s, e);
    var c := Mover(s, e);
    StepFrame(s, e);
    MoverCovers(s, e);
    hide Act, Enabled, AllSound;
    forall d | 0 <= d < |s'.calls| && d != c ensures Covers(s'.table, s'.calls[d]) {
      assert Covers(s.table, s.calls[d]);
      if HoldsB(s.calls[d]) {
        TableStandsStill(s, e, d);
      }
      CoversStays(s.table, s'.table, s.calls[d]);
    }
  }

  lemma CoversStays(table: map<string, nat>, table': map<string, nat>, call: Call)
    requires Covers(table, call) && (HoldsB(call) ==> table' == table)
    ensures Covers(table', call)
  {
  }

  // The table does not change under anyone else who holds the broker lock.
  lemma TableStandsStill(s: State, e: Step, d: nat)
    requires Exclusion(s) && Enabled(s, e) && d < |s.calls| && d != Mover(s, e) && HoldsB(s.calls[d])
    ensures Act(s, e).table == s.table
  {
    StepFrame(s, e);
    var c := Mover(s, e);
    hide Act, Enabled, HoldsB, WritesB;
    if c < |s.calls| {
      assert BothB(s.calls[c], s.calls[d]);
    }
  }

  // ---- What a Stats call has seen ----

  // In this state the call holds the queue's lock and the row is the queue's.
  predicate ReadAt(s: State, c: nat, row: Row) {
    && c < |s.calls| && s.calls[c].pc.ScanIn? && s.calls[c].pc.name == row.name
    && s.calls[c].pc.o < |s.heap| && Reports(row, s.heap[s.calls[c].pc.o].q)
    && row.name in s.table && s.table[row.name] == s.calls[c].pc.o
  }

  ghost predicate Seen(states: seq<State>, n: nat, c: nat, row: Row)
    requires n <= |states|
  {
    exists m :: 0 <= m < n && ReadAt(states[m], c, row)
  }

  // A Stats call holds the broker's read lock.
  predicate Reading(s: State, c: nat) {
    c < |s.calls| && s.calls[c].op.Stats? && HoldsB(s.calls[c])
  }

  // In the first n + 1 states, the table stood still while call c was reading.
  ghost predicate Frozen(states: seq<State>, n: nat, c: nat)
    requires n < |states| && c < |states[n].calls|
  {
    var call := states[n].calls[c];
    call.op.Stats? ==>
      forall m :: 0 <= m <= n && Reading(states[m], c) ==>
        && !call.pc.Start? && !call.pc.WaitB?
        && (HoldsB(call) ==> states[m].table == states[n].table)
        && (call.pc.Returned? && call.pc.res.Rows? ==> states[m].table.Keys == Names(call.pc.res.rows))
  }

  // A call that is past waiting for the broker lock has been reading.
  ghost predicate HasRead(states: seq<State>, n: nat, c: nat)
    requires n < |states| && c < |states[n].calls|
  {
    var call := states[n].calls[c];
    call.op.Stats? && !call.pc.Start? && !call.pc.WaitB? ==> exists m :: 0 <= m <= n && Reading(states[m], c)
  }

  ghost predicate AllSeen(states: seq<State>, n: nat)
    requires n < |states|
  {
    && Safe(states[n]) && AllCover(states[n])
    && (forall c :: 0 <= c < |states[n].calls| ==>
          && Frozen(states, n, c) && HasRead(states, n, c)
          && forall row :: row in RowsOf(states[n].calls[c].pc) ==> Seen(states, n, c, row))
  }

  // The rows a step adds are read in the state it starts from.
  lemma RowsOfNext(s: State, e: Step, c: nat, row: Row)
    requires AllCover(s) && AllSound(s) && Enabled(s, e)
    requires c < |Act(s, e).calls| && row in RowsOf(Act(s, e).calls[c].pc)
    ensures c < |s.calls| && (row in RowsOf(s.calls[c].pc) || ReadAt(s, c, row))
  {
    StepFrame(s, e);
    if c == Mover(s, e) {
      hide GrantsB, GrantsQ, Worked, Alive, AllCover;
      if !e.Invoke? {
        assert Covers(s.table, s.calls[c]) && Sound(s.heap, s.table, s.calls[c]);
        hide Names, DistinctNames;
      }
    }
  }

  lemma SeenLater(states: seq<State>, n: nat, c: nat, row: Row)
    requires n < |states| && (Seen(states, n, c, row) || ReadAt(states[n], c, row))
    ensures Seen(states, n + 1, c, row)
  {
  }

  // How a call's hold on the broker lock can change.
  lemma HoldNext(s: State, e: Step, c: nat)
    requires AllSound(s) && Exclusion(s) && Enabled(s, e) && c < |Act(s, e).calls|
    ensures var s' := Act(s, e);
            s'.calls[c].op.Stats? ==>
              && (c < |s.calls| ==> s.calls[c].op.Stats?)
              && (c >= |s.calls| ==> s'.calls[c].pc.Start?)
              && (c < |s.calls| && HoldsB(s.calls[c]) ==>
                    && s'.table == s.table
                    && (HoldsB(s'.calls[c]) || (s.calls[c].pc.Leave? && s'.calls[c].pc == Returned(s.calls[c].pc.res))))
              && (c < |s.calls| && s.calls[c].pc.Returned? ==> s'.calls[c] == s.calls[c])
              && (s'.calls[c].pc.Start? || s'.calls[c].pc.WaitB? ==>
                    c < |s.calls| ==> s.calls[c].pc.Start? || s.calls[c].pc.WaitB?)
              && (c < |s.calls| && (s.calls[c].pc.Start? || s.calls[c].pc.WaitB?) ==> !s'.calls[c].pc.Returned?)
  {
    StepFrame(s, e);
    if c == Mover(s, e) {
      hide GrantsB, GrantsQ, Worked, Alive, OnQueue;
    } else if HoldsB(s.calls[c]) {
      TableStandsStill(s, e, c);
      hide Act, Enabled;
    } else {
      hide Act, Enabled;
    }
  }

  lemma FrozenNext(states: seq<State>, n: nat, e: Step, c: nat)
    requires n + 1 < |states| && AllSeen(states, n) && Enabled(states[n], e) && states[n + 1] == Act(states[n], e)
    requires c < |states[n + 1].calls|
    requires c >= |states[n].calls| ==> forall m :: 0 <= m <= n ==> c >= |states[m].calls|
    ensures Frozen(states, n + 1, c)
  {
    var s, s' := states[n], states[n + 1];
    HoldNext(s, e, c);
    if c < |s.calls| {
      assert Frozen(states, n, c) && Covers(s.table, s.calls[c]);
    }
    hide Act, Enabled, AllSeen, Safe, AllCover, DistinctNames, Names, HoldsB;
    assert !HoldsB(s'.calls[c]) || !s'.calls[c].pc.Start? by {
      HoldersHaveStarted(s'.calls[c]);
    }
    HoldersHaveStarted(s'.calls[c]);
  }

  lemma HasReadNext(states: seq<State>, n: nat, e: Step, c: nat)
    requires n + 1 < |states| && AllSeen(states, n) && Enabled(states[n], e) && states[n + 1] == Act(states[n], e)
    requires c < |states[n + 1].calls|
    ensures HasRead(states, n + 1, c)
  {
    var s, s' := states[n], states[n + 1];
    HoldNext(s, e, c);
    if c < |s.calls| {
      assert HasRead(states, n, c);
    }
    if Reading(s', c) {
      assert Reading(states[n + 1], c);
    }
    hide Act, Enabled, AllSeen, Safe, AllCover, Frozen;
  }

  lemma HoldersHaveStarted(call: Call)
    ensures HoldsB(call) && call.op.Stats? ==> !call.pc.Start? && !call.pc.WaitB? && !call.pc.Returned?
  {
  }

  lemma {:induction false} SeenThroughout(steps: seq<Step>, n: nat)
    requires Runs(INIT, steps) && n <= |steps|
    ensures AllSeen(States(INIT, steps), n)
  {
    var states := States(INIT, steps);
    if n > 0 {
      var m := n - 1;
      SeenThroughout(steps, m);
      StatesStep(INIT, steps, m);
      CallsOnlyGrow(steps, m);
      SeenStep(states, m, steps[m]);
    }
  }

  lemma {:induction false} CallsOnlyGrow(steps: seq<Step>, n: nat)
    requires Runs(INIT, steps) && n <= |steps|
    ensures forall m :: 0 <= m <= n ==> |States(INIT, steps)[m].calls| <= |States(INIT, steps)[n].calls|
  {
    if n > 0 {
      CallsOnlyGrow(steps, n - 1);
      StatesStep(INIT, steps, n - 1);
      StepFrame(States(INIT, steps)[n - 1], steps[n - 1]);
      hide Act, Enabled;
    }
  }

  lemma SeenStep(states: seq<State>, n: nat, e: Step)
    requires n + 1 < |states| && AllSeen(states, n) && Enabled(states[n], e) && states[n + 1] == Act(states[n], e)
    requires forall m :: 0 <= m <= n ==> |states[m].calls| <= |states[n].calls|
    ensures AllSeen(states, n + 1)
  {
    var s, s' := states[n], states[n + 1];
    StepKeepsSafe(s, e);
    StepKeepsCovers(s, e);
    assert AllSound(s);
    hide Act, Enabled, Safe, AllCover, Frozen, HasRead, Seen, ReadAt, RowsOf, AllSound;
    var next := n + 1;
    forall c | 0 <= c < |s'.calls| ensures Frozen(states, next, c) && HasRead(states, next, c) {
      FrozenNext(states, n, e, c);
      HasReadNext(states, n, e, c);
    }
    forall c, row | 0 <= c < |s'.calls| && row in RowsOf(s'.calls[c].pc) ensures Seen(states, next, c, row) {
      RowsOfNext(s, e, c, row);
      SeenLater(states, n, c, row);
    }
  }

  // In every run, what a Stats call returns has one row for each queue in the
  // table, which is the same whenever the call holds the broker's read lock; and
  // each row is its queue's counters in a state in which the call has its lock.
  lemma StatsReportsEachQueue(steps: seq<Step>, c: nat)
    requires Runs(INIT, steps) && c < |After(INIT, steps).calls|
    requires After(INIT, steps).calls[c].op.Stats? && After(INIT, steps).calls[c].pc.Returned?
    ensures var res := After(INIT, steps).calls[c].pc.res;
            var states := States(INIT, steps);
            && res.Rows? && DistinctNames(res.rows)
            && (exists m :: 0 <= m < |states| && Reading(states[m], c))
            && (forall m :: 0 <= m < |states| && Reading(states[m], c) ==> states[m].table.Keys == Names(res.rows))
            && (forall row :: row in res.rows ==> exists m :: 0 <= m < |states| && ReadAt(states[m], c, row))
  {
    LastState(INIT, steps);
    SeenThroughout(steps, |steps|);
    var states := States(INIT, steps);
    var s := states[|steps|];
    assert Covers(s.table, s.calls[c]) && Frozen(states, |steps|, c) && HasRead(states, |steps|, c);
    var res := s.calls[c].pc.res;
    hide Covers, ReadAt, Safe, AllCover, HoldsB;
    forall row | row in res.rows ensures exists m :: 0 <= m < |states| && ReadAt(states[m], c, row) {
      assert row in RowsOf(s.calls[c].pc) && Seen(states, |steps|, c, row);
    }
  }
}
