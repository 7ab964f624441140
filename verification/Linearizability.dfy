/** The concurrent broker behaves as if every call but Stats took effect at one
    instant.  A Put or Get that finishes on a queue deleted meanwhile cannot be
    placed where it happens: it goes just before the delete, in lock order. */
module Linearizability {
  import opened Wrappers
  import opened MemQ
  import opened BrokerSteps
  import opened BrokerSafety

  // One call in the sequential order, with the result it gave.
  datatype Entry = Entry(id: nat, op: Op, res: Result)

  // ---- Sequential orders ----

  function Replay(lin: seq<Entry>): Table {
    if |lin| == 0 then map[]
    else
      var e := lin[|lin| - 1];
      if e.op.Stats? then Replay(lin[..|lin| - 1]) else Alone(Replay(lin[..|lin| - 1]), e.id, e.op).0
  }

  // Executed alone, one after the other, the calls give the results they gave.
  predicate Legal(lin: seq<Entry>) {
    |lin| == 0 ||
    var e := lin[|lin| - 1];
    && Legal(lin[..|lin| - 1]) && !e.op.Stats?
    && Alone(Replay(lin[..|lin| - 1]), e.id, e.op).1 == e.res
  }

  lemma Snoc(lin: seq<Entry>, e: Entry)
    requires !e.op.Stats?
    ensures Replay(lin + [e]) == Alone(Replay(lin), e.id, e.op).0
    ensures Legal(lin + [e]) <==> Legal(lin) && Alone(Replay(lin), e.id, e.op).1 == e.res
  {
    assert (lin + [e])[..|lin|] == lin;
  }

  // Orders with the same effect can be continued in the same way.
  lemma {:induction false} SameContinuation(a: seq<Entry>, b: seq<Entry>, rest: seq<Entry>)
    requires Replay(a) == Replay(b)
    ensures Replay(a + rest) == Replay(b + rest)
    ensures Legal(b) && Legal(a + rest) ==> Legal(b + rest)
  {
    if rest == [] {
      assert a + rest == a && b + rest == b;
    } else {
      var front := rest[..|rest| - 1];
      SameContinuation(a, b, front);
      assert (a + rest)[..|a + rest| - 1] == a + front;
      assert (b + rest)[..|b + rest| - 1] == b + front;
    }
  }

  lemma {:induction false} LegalPrefix(lin: seq<Entry>, n: nat)
    requires Legal(lin) && n <= |lin|
    ensures Legal(lin[..n])
  {
    if n < |lin| {
      LegalPrefix(lin[..|lin| - 1], n);
      assert lin[..|lin| - 1][..n] == lin[..n];
    } else {
      assert lin[..n] == lin;
    }
  }

  function Insert(lin: seq<Entry>, p: nat, e: Entry): seq<Entry>
    requires p <= |lin|
  {
    lin[..p] + [e] + lin[p..]
  }

  // A delete forgets whatever was just done to its queue.
  lemma DeleteForgets(pre: seq<Entry>, e: Entry, d: Entry)
    requires (e.op.Put? || e.op.Get?) && d.op == Delete(e.op.name) && e.op.name in Replay(pre)
    requires OnQueue(Replay(pre)[e.op.name], e.id, e.op).1 == e.res
    requires Legal(pre + [d])
    ensures Replay(pre + [e]) == Replay(pre)[e.op.name := OnQueue(Replay(pre)[e.op.name], e.id, e.op).0]
    ensures Replay(pre + [e] + [d]) == Replay(pre + [d]) && Legal(pre + [e] + [d])
  {
    Snoc(pre, e);
    Snoc(pre, d);
    Snoc(pre + [e], d);
    assert Replay(pre)[e.op.name := OnQueue(Replay(pre)[e.op.name], e.id, e.op).0] - {e.op.name}
        == Replay(pre) - {e.op.name};
  }

  // So a Put or Get fits in just before a delete of its queue, and everything
  // from the delete on stays as it was.
  lemma InsertBeforeDelete(lin: seq<Entry>, p: nat, e: Entry)
    requires Legal(lin) && p < |lin|
    requires (e.op.Put? || e.op.Get?) && lin[p].op == Delete(e.op.name)
    requires e.op.name in Replay(lin[..p])
    requires OnQueue(Replay(lin[..p])[e.op.name], e.id, e.op).1 == e.res
    ensures var lin' := Insert(lin, p, e);
            && Legal(lin') && Replay(lin') == Replay(lin)
            && (forall k :: p < k <= |lin| ==> Replay(lin'[..k + 1]) == Replay(lin[..k]))
            && Replay(lin'[..p + 1]) ==
                 Replay(lin[..p])[e.op.name := OnQueue(Replay(lin[..p])[e.op.name], e.id, e.op).0]
  {
    hide OnQueue, Alone, Replay, Legal, Insert;
    LegalPrefix(lin, p + 1);
    AroundInsertion(lin, p, e);
    DeleteForgets(lin[..p], e, lin[p]);
    forall k | p < k <= |lin| ensures Replay(Insert(lin, p, e)[..k + 1]) == Replay(lin[..k]) {
      ContinueAfter(lin, p, e, k);
    }
    ContinueAfter(lin, p, e, |lin|);
  }

  lemma AroundInsertion(lin: seq<Entry>, p: nat, e: Entry)
    requires p < |lin|
    ensures |Insert(lin, p, e)| == |lin| + 1
    ensures lin[..p + 1] == lin[..p] + [lin[p]] && Insert(lin, p, e)[..p + 1] == lin[..p] + [e]
    ensures Insert(lin, p, e)[..|lin| + 1] == Insert(lin, p, e) && lin[..|lin|] == lin
  {
  }

  lemma ContinueAfter(lin: seq<Entry>, p: nat, e: Entry, k: nat)
    requires p < k <= |lin| && Legal(lin)
    requires Replay(lin[..p] + [e] + [lin[p]]) == Replay(lin[..p] + [lin[p]])
    requires Legal(lin[..p] + [e] + [lin[p]])
    ensures Replay(Insert(lin, p, e)[..k + 1]) == Replay(lin[..k])
    ensures Legal(Insert(lin, p, e)[..k + 1])
  {
    hide Replay, Legal;
    var rest := lin[p + 1..k];
    assert lin[..k] == lin[..p] + [lin[p]] + rest;
    assert Insert(lin, p, e)[..k + 1] == lin[..p] + [e] + [lin[p]] + rest;
    LegalPrefix(lin, k);
    SameContinuation(lin[..p] + [lin[p]], lin[..p] + [e] + [lin[p]], rest);
  }

  // ---- The order matches the calls ----

  predicate HasEffect(c: Call) {
    !c.op.Stats? && (c.pc.Leave? || c.pc.Returned?)
  }

  ghost predicate Listed(lin: seq<Entry>, c: nat) {
    exists i :: 0 <= i < |lin| && lin[i].id == c
  }

  predicate Recorded(calls: seq<Call>, x: Entry) {
    && x.id < |calls| && !calls[x.id].op.Stats?
    && calls[x.id].op == x.op && Finished(calls[x.id].pc, x.res)
  }

  ghost predicate Distinct(lin: seq<Entry>) {
    forall i, j :: 0 <= i < j < |lin| ==> lin[i].id != lin[j].id
  }

  // The order lists exactly the calls that took effect, once, with their results.
  ghost predicate Matches(calls: seq<Call>, lin: seq<Entry>) {
    && (forall i :: 0 <= i < |lin| ==> Recorded(calls, lin[i]))
    && Distinct(lin)
    && (forall c :: 0 <= c < |calls| && HasEffect(calls[c]) ==> Listed(lin, c))
  }

  // Call a returned before call b was invoked.
  predicate Precedes(calls: seq<Call>, a: nat, b: nat) {
    && a < |calls| && b < |calls|
    && calls[a].resp.Some? && calls[a].resp.value < calls[b].inv
  }

  // The order never contradicts real time.
  ghost predicate RealTime(calls: seq<Call>, lin: seq<Entry>) {
    forall i, j :: 0 <= i < j < |lin| ==> !Precedes(calls, lin[j].id, lin[i].id)
  }

  // ---- The invariant of the construction ----

  // Replaying the whole order gives the live queues.
  ghost predicate Reflects(s: State, table: Table) {
    && (forall n :: n in s.table <==> n in table)
    && (forall n :: n in s.table ==> s.table[n] < |s.heap| && table[n] == s.heap[s.table[n]].q)
  }

  // Replaying it up to the delete of a dead queue gives that queue as it is in
  // the heap.
  ghost predicate Buried(s: State, lin: seq<Entry>, died: map<nat, nat>) {
    && (forall o :: 0 <= o < |s.heap| && !Alive(s, o) ==> o in died && Died(s.heap[o], lin, died[o]))
    && (forall o, p :: o in died && p in died && o != p ==> died[o] != died[p])
    && (forall o :: o in died ==> o < |s.heap| && !Alive(s, o))
  }

  ghost predicate Mirrors(s: State, lin: seq<Entry>, died: map<nat, nat>) {
    Reflects(s, Replay(lin)) && Buried(s, lin, died)
  }

  // Position `p` of the order is the delete of a dead queue.
  ghost predicate Died(obj: Obj, lin: seq<Entry>, p: nat) {
    && p < |lin| && lin[p].op == Delete(obj.name)
    && obj.name in Replay(lin[..p]) && Replay(lin[..p])[obj.name] == obj.q
  }

  // A call still working on a dead queue may go before its delete: nothing from
  // there on returned before the call was invoked.
  ghost predicate MayGoBefore(calls: seq<Call>, lin: seq<Entry>, p: nat, c: nat) {
    forall j :: p <= j < |lin| ==> !Precedes(calls, lin[j].id, c)
  }

  ghost predicate LateCallsFit(s: State, lin: seq<Entry>, died: map<nat, nat>) {
    forall c :: 0 <= c < |s.calls| && OnAQueue(s.calls[c].pc) && s.calls[c].pc.o in died ==>
      MayGoBefore(s.calls, lin, died[s.calls[c].pc.o], c)
  }

  predicate Clocked(s: State) {
    forall c :: 0 <= c < |s.calls| ==>
      s.calls[c].inv < s.now && (s.calls[c].resp.Some? ==> s.calls[c].resp.value < s.now && s.calls[c].pc.Returned?)
  }

  // ---- What every step does to the calls ----

  // One call moves on (or is new); what it has finished with stays finished.
  ghost predicate Moves(s: State, s': State, c: nat) {
    && c < |s'.calls| && |s'.calls| == (if c < |s.calls| then |s.calls| else c + 1) && c <= |s.calls|
    && s'.now == s.now + 1
    && (forall d :: 0 <= d < |s.calls| && d != c ==> s'.calls[d] == s.calls[d])
    && (c == |s.calls| ==> s'.calls[c].pc == Start && s'.calls[c].inv == s.now && s'.calls[c].resp == None)
    && (c < |s.calls| ==>
          && s'.calls[c].op == s.calls[c].op && s'.calls[c].inv == s.calls[c].inv
          && (s'.calls[c].resp == s.calls[c].resp || (s'.calls[c].resp == Some(s.now) && s'.calls[c].pc.Returned?))
          && (s.calls[c].pc.Returned? ==> s'.calls[c].pc.Returned?)
          && (forall r :: Finished(s.calls[c].pc, r) ==> Finished(s'.calls[c].pc, r)))
  }

  lemma StepMoves(s: State, e: Step)
    requires Enabled(s, e)
    ensures Moves(s, Act(s, e), Mover(s, e))
  {
    hide Worked, OnQueue, RowOf;
  }

  lemma MovesClocked(s: State, s': State, c: nat)
    requires Moves(s, s', c) && Clocked(s)
    ensures Clocked(s')
  {
  }

  // A call that has not returned precedes nobody, and returning now precedes
  // nobody already invoked.
  lemma PrecedesStable(s: State, s': State, c: nat, a: nat, b: nat)
    requires Moves(s, s', c) && Clocked(s) && a < |s.calls| && b < |s.calls|
    ensures Precedes(s'.calls, a, b) ==> Precedes(s.calls, a, b)
  {
  }

  // ---- A step that adds nothing to the order ----

  lemma QuietMatches(s: State, s': State, c: nat, lin: seq<Entry>)
    requires Moves(s, s', c) && Matches(s.calls, lin)
    requires HasEffect(s'.calls[c]) ==> c < |s.calls| && HasEffect(s.calls[c])
    ensures Matches(s'.calls, lin)
  {
    hide Finished;
    forall d | 0 <= d < |s'.calls| && HasEffect(s'.calls[d]) ensures Listed(lin, d) {
      assert HasEffect(s.calls[d]);
    }
  }

  lemma QuietRealTime(s: State, s': State, c: nat, lin: seq<Entry>)
    requires Moves(s, s', c) && Clocked(s) && Matches(s.calls, lin) && RealTime(s.calls, lin)
    ensures RealTime(s'.calls, lin)
  {
    hide Moves, Precedes, Clocked;
    forall i, j | 0 <= i < j < |lin| ensures !Precedes(s'.calls, lin[j].id, lin[i].id) {
      PrecedesStable(s, s', c, lin[j].id, lin[i].id);
    }
  }

  lemma QuietLateCalls(s: State, s': State, c: nat, lin: seq<Entry>, died: map<nat, nat>)
    requires Moves(s, s', c) && Clocked(s) && Matches(s.calls, lin) && LateCallsFit(s, lin, died)
    requires OnAQueue(s'.calls[c].pc) && s'.calls[c].pc.o in died ==>
               c < |s.calls| && OnAQueue(s.calls[c].pc) && s.calls[c].pc.o == s'.calls[c].pc.o
    ensures LateCallsFit(s', lin, died)
  {
    hide Precedes, Clocked, Finished;
    forall d, j | 0 <= d < |s'.calls| && OnAQueue(s'.calls[d].pc) && s'.calls[d].pc.o in died
                  && died[s'.calls[d].pc.o] <= j < |lin|
      ensures !Precedes(s'.calls, lin[j].id, d)
    {
      assert MayGoBefore(s.calls, lin, died[s'.calls[d].pc.o], d);
      PrecedesStable(s, s', c, lin[j].id, d);
    }
  }

  // ---- A step that puts its call into the order ----

  lemma InsertedListed(lin: seq<Entry>, p: nat, e: Entry, d: nat)
    requires p <= |lin| && (d == e.id || Listed(lin, d))
    ensures Listed(Insert(lin, p, e), d)
  {
    var lin' := Insert(lin, p, e);
    assert lin'[p] == e;
    if d != e.id {
      var i :| 0 <= i < |lin| && lin[i].id == d;
      assert lin'[if i < p then i else i + 1].id == d;
    }
  }

  lemma InsertedDistinct(lin: seq<Entry>, p: nat, e: Entry)
    requires p <= |lin| && Distinct(lin) && !Listed(lin, e.id)
    ensures Distinct(Insert(lin, p, e))
  {
  }

  lemma InsertedEntries(lin: seq<Entry>, p: nat, e: Entry, i: nat)
    requires p <= |lin| && i <= |lin|
    ensures Insert(lin, p, e)[i] == (if i < p then lin[i] else if i == p then e else lin[i - 1])
  {
  }

  lemma InsertedMatches(s: State, s': State, c: nat, lin: seq<Entry>, p: nat, e: Entry)
    requires Moves(s, s', c) && Matches(s.calls, lin) && c < |s.calls| && p <= |lin|
    requires !HasEffect(s.calls[c]) && !s.calls[c].op.Stats?
    requires e.id == c && e.op == s.calls[c].op && Finished(s'.calls[c].pc, e.res)
    ensures Matches(s'.calls, Insert(lin, p, e))
  {
    var lin' := Insert(lin, p, e);
    forall i | 0 <= i < |lin| ensures Recorded(s'.calls, lin[i]) && lin[i].id != c {
      assert Recorded(s.calls, lin[i]);
    }
    InsertedDistinct(lin, p, e);
    assert Recorded(s'.calls, e);
    assert |lin'| == |lin| + 1;
    hide Finished, Insert, Listed, Recorded, Distinct;
    forall d | 0 <= d < |s'.calls| && HasEffect(s'.calls[d]) ensures Listed(lin', d) {
      InsertedListed(lin, p, e, d);
    }
    forall i | 0 <= i < |lin'| ensures Recorded(s'.calls, lin'[i]) {
      InsertedEntries(lin, p, e, i);
    }
  }

  lemma InsertedRealTime(s: State, s': State, c: nat, lin: seq<Entry>, p: nat, e: Entry)
    requires Moves(s, s', c) && Clocked(s) && Matches(s.calls, lin) && RealTime(s.calls, lin)
    requires c < |s.calls| && p <= |lin| && e.id == c && !s'.calls[c].pc.Returned? && !s.calls[c].pc.Returned?
    requires MayGoBefore(s.calls, lin, p, c)
    ensures RealTime(s'.calls, Insert(lin, p, e))
  {
    var lin' := Insert(lin, p, e);
    NotReturned(s, s', c);
    forall i, j | 0 <= i < j < |lin'| ensures !Precedes(s'.calls, lin'[j].id, lin'[i].id) {
      if j != p {
        var a := lin[if j < p then j else j - 1].id;
        assert lin'[j].id == a;
        if i == p {
          PrecedesStable(s, s', c, a, c);
        } else {
          var b := lin[if i < p then i else i - 1].id;
          assert lin'[i].id == b;
          PrecedesStable(s, s', c, a, b);
        }
      }
    }
  }

  lemma NotReturned(s: State, s': State, c: nat)
    requires Moves(s, s', c) && Clocked(s) && c < |s.calls|
    requires !s'.calls[c].pc.Returned? && !s.calls[c].pc.Returned?
    ensures forall b :: !Precedes(s'.calls, c, b)
  {
  }

  // Where the deletes end up after an insertion.
  function Shifted(died: map<nat, nat>, p: nat): map<nat, nat> {
    map o | o in died :: if died[o] >= p then died[o] + 1 else died[o]
  }

  lemma InsertedLateCalls(s: State, s': State, c: nat, lin: seq<Entry>, p: nat, e: Entry, died: map<nat, nat>)
    requires Moves(s, s', c) && Clocked(s) && Matches(s.calls, lin) && LateCallsFit(s, lin, died)
    requires c < |s.calls| && p <= |lin| && e.id == c && !s'.calls[c].pc.Returned? && !s.calls[c].pc.Returned?
    requires !OnAQueue(s'.calls[c].pc)
    ensures LateCallsFit(s', Insert(lin, p, e), Shifted(died, p))
  {
    hide Precedes, Clocked, Finished;
    var lin' := Insert(lin, p, e);
    NotReturned(s, s', c);
    forall d, j | 0 <= d < |s'.calls| && OnAQueue(s'.calls[d].pc) && s'.calls[d].pc.o in died
                  && Shifted(died, p)[s'.calls[d].pc.o] <= j < |lin'|
      ensures !Precedes(s'.calls, lin'[j].id, d)
    {
      assert MayGoBefore(s.calls, lin, died[s'.calls[d].pc.o], d);
      if j != p {
        var k := if j < p then j else j - 1;
        assert lin'[j] == lin[k] && died[s'.calls[d].pc.o] <= k;
        PrecedesStable(s, s', c, lin[k].id, d);
      }
    }
  }

  // ---- The table and the heap against the order ----

  lemma DiedStays(obj: Obj, lin: seq<Entry>, e: Entry, p: nat)
    requires Died(obj, lin, p)
    ensures Died(obj, lin + [e], p)
  {
    assert (lin + [e])[..p] == lin[..p];
  }

  // A call that changes nothing.
  lemma MirrorsIdle(s: State, s': State, lin: seq<Entry>, e: Entry, died: map<nat, nat>)
    requires Mirrors(s, lin, died) && !e.op.Stats?
    requires s'.heap == s.heap && s'.table == s.table
    requires Alone(Replay(lin), e.id, e.op).0 == Replay(lin)
    ensures Mirrors(s', lin + [e], died)
  {
    Snoc(lin, e);
    hide Died, Alone, Replay, Legal;
    BuriedIdle(s, s', lin, e, died);
  }

  lemma BuriedIdle(s: State, s': State, lin: seq<Entry>, e: Entry, died: map<nat, nat>)
    requires Buried(s, lin, died) && s'.heap == s.heap && s'.table == s.table
    ensures Buried(s', lin + [e], died)
  {
    hide Died;
    forall o | 0 <= o < |s.heap| && !Alive(s', o) ensures o in died && Died(s'.heap[o], lin + [e], died[o]) {
      assert !Alive(s, o);
      DiedStays(s.heap[o], lin, e, died[o]);
    }
    forall o | o in died ensures !Alive(s', o) {
      assert !Alive(s, o);
    }
  }

  lemma MirrorsCreate(s: State, s': State, lin: seq<Entry>, e: Entry, died: map<nat, nat>, n: string)
    requires Mirrors(s, lin, died) && TableOk(s.heap, s.table)
    requires e.op == Create(n) && n !in s.table
    requires s'.heap == s.heap + [NewObj(n)] && s'.table == s.table[n := |s.heap|]
    ensures Mirrors(s', lin + [e], died)
  {
    Snoc(lin, e);
    hide Died, Replay, Legal;
    BuriedAfterCreate(s, s', lin, e, died, n);
  }

  lemma BuriedAfterCreate(s: State, s': State, lin: seq<Entry>, e: Entry, died: map<nat, nat>, n: string)
    requires Buried(s, lin, died) && TableOk(s.heap, s.table) && n !in s.table
    requires s'.heap == s.heap + [NewObj(n)] && s'.table == s.table[n := |s.heap|]
    ensures Buried(s', lin + [e], died)
  {
    hide Died;
    forall o | 0 <= o < |s.heap| ensures Alive(s', o) == Alive(s, o) {
    }
    forall o | 0 <= o < |s'.heap| && !Alive(s', o) ensures o in died && Died(s'.heap[o], lin + [e], died[o]) {
      DiedStays(s.heap[o], lin, e, died[o]);
    }
  }

  lemma MirrorsDelete(s: State, s': State, lin: seq<Entry>, e: Entry, died: map<nat, nat>, n: string)
    requires Mirrors(s, lin, died) && TableOk(s.heap, s.table)
    requires e.op == Delete(n) && n in s.table
    requires s'.heap == s.heap && s'.table == s.table - {n}
    ensures Mirrors(s', lin + [e], died[s.table[n] := |lin|])
  {
    Snoc(lin, e);
    NewlyDied(s.heap[s.table[n]], lin, e);
    hide Replay, Died, Buried, Legal;
    BuriedOneMore(s, s', lin, e, died, n);
  }

  lemma BuriedOneMore(s: State, s': State, lin: seq<Entry>, e: Entry, died: map<nat, nat>, n: string)
    requires Buried(s, lin, died) && TableOk(s.heap, s.table) && n in s.table
    requires s'.heap == s.heap && s'.table == s.table - {n}
    requires Died(s.heap[s.table[n]], lin + [e], |lin|)
    ensures Buried(s', lin + [e], died[s.table[n] := |lin|])
  {
    hide Died;
    var gone := s.table[n];
    forall o | 0 <= o < |s.heap| ensures Alive(s', o) == (Alive(s, o) && o != gone) {
    }
    forall o | 0 <= o < |s.heap| && !Alive(s', o) && o != gone
      ensures o in died && Died(s'.heap[o], lin + [e], died[o])
    {
      DiedStays(s.heap[o], lin, e, died[o]);
    }
    forall o | o in died ensures died[o] < |lin| {
      DiedMeans(s.heap[o], lin, died[o]);
    }
  }

  lemma DiedMeans(obj: Obj, lin: seq<Entry>, p: nat)
    requires Died(obj, lin, p)
    ensures p < |lin|
  {
  }

  lemma NewlyDied(obj: Obj, lin: seq<Entry>, e: Entry)
    requires e.op == Delete(obj.name) && obj.name in Replay(lin) && Replay(lin)[obj.name] == obj.q
    ensures Died(obj, lin + [e], |lin|)
  {
    assert (lin + [e])[..|lin|] == lin;
  }

  // Work on a queue leaves every name and address as it was.
  ghost predicate WorksOn(s: State, s': State, o: nat, e: Entry) {
    && (e.op.Put? || e.op.Get? || e.op.Drain?)
    && o < |s.heap| && s.heap[o].name == e.op.name
    && s'.table == s.table && |s'.heap| == |s.heap|
    && s'.heap[o].name == e.op.name && s'.heap[o].q == OnQueue(s.heap[o].q, e.id, e.op).0
    && s'.heap[o].workers == s.heap[o].workers + [e.id]
    && s'.heap[o].late == (if Alive(s, o) then s.heap[o].late else s.heap[o].late + [e.id])
    && (forall p :: 0 <= p < |s.heap| && p != o ==> s'.heap[p] == s.heap[p])
  }

  lemma WorkedOn(s: State, s': State, o: nat, e: Entry)
    requires (e.op.Put? || e.op.Get? || e.op.Drain?) && o < |s.heap| && s.heap[o].name == e.op.name
    requires s'.table == s.table && s'.heap == s.heap[o := Worked(s.heap[o], e.id, e.op, Alive(s, o))]
    ensures WorksOn(s, s', o, e)
  {
  }

  lemma WorkKeepsAlive(s: State, s': State, o: nat, e: Entry)
    requires WorksOn(s, s', o, e)
    ensures forall p :: Alive(s', p) == Alive(s, p)
  {
    hide OnQueue;
  }

  // Work on a live queue.
  lemma MirrorsLiveWork(s: State, s': State, lin: seq<Entry>, e: Entry, died: map<nat, nat>, o: nat)
    requires Mirrors(s, lin, died) && TableOk(s.heap, s.table)
    requires WorksOn(s, s', o, e) && Alive(s, o)
    ensures Mirrors(s', lin + [e], died)
  {
    Snoc(lin, e);
    ReflectsLiveWork(s, s', o, e, Replay(lin));
    hide Replay, Buried, Reflects, Legal, OnQueue, WorksOn, Alive, TableOk, Alone;
    BuriedAfterLiveWork(s, s', lin, e, died, o);
  }

  lemma ReflectsLiveWork(s: State, s': State, o: nat, e: Entry, table: Table)
    requires Reflects(s, table) && TableOk(s.heap, s.table) && WorksOn(s, s', o, e) && Alive(s, o)
    ensures Reflects(s', Alone(table, e.id, e.op).0)
  {
    hide OnQueue;
  }

  lemma BuriedAfterLiveWork(s: State, s': State, lin: seq<Entry>, e: Entry, died: map<nat, nat>, o: nat)
    requires Buried(s, lin, died) && WorksOn(s, s', o, e) && Alive(s, o)
    ensures Buried(s', lin + [e], died)
  {
    WorkKeepsAlive(s, s', o, e);
    hide Died, Alive, OnQueue;
    forall p | 0 <= p < |s.heap| && !Alive(s', p) ensures p in died && Died(s'.heap[p], lin + [e], died[p]) {
      DiedStays(s.heap[p], lin, e, died[p]);
    }
  }

  // The live queues do not see work on a dead one.
  lemma ReflectsDeadWork(s: State, s': State, o: nat, e: Entry, table: Table)
    requires Reflects(s, table) && TableOk(s.heap, s.table) && WorksOn(s, s', o, e) && !Alive(s, o)
    ensures Reflects(s', table)
  {
    hide OnQueue;
  }

  // Work on a dead queue, placed just before its delete.
  lemma MirrorsDeadWork(s: State, s': State, lin: seq<Entry>, e: Entry, died: map<nat, nat>, o: nat)
    requires Mirrors(s, lin, died) && Legal(lin) && TableOk(s.heap, s.table)
    requires WorksOn(s, s', o, e) && (e.op.Put? || e.op.Get?) && o in died && died[o] <= |lin|
    requires OnQueue(s.heap[o].q, e.id, e.op).1 == e.res
    ensures Legal(Insert(lin, died[o], e))
    ensures Mirrors(s', Insert(lin, died[o], e), Shifted(died, died[o]))
  {
    hide Replay, Legal, OnQueue, Insert, Shifted, TableOk, Reflects;
    assert !Alive(s, o) && Died(s.heap[o], lin, died[o]);
    ReflectsDeadWork(s, s', o, e, Replay(lin));
    InsertBeforeDelete(lin, died[o], e);
    hide Buried, Died, Alive;
    BuriedAfterDeadWork(s, s', lin, e, died, o, Insert(lin, died[o], e));
  }

  // The order with one more entry replays as before from position `p` on.
  ghost predicate Resumes(lin: seq<Entry>, lin': seq<Entry>, p: nat, e: Entry) {
    && p <= |lin| && lin' == Insert(lin, p, e)
    && (forall k :: p < k <= |lin| ==> Replay(lin'[..k + 1]) == Replay(lin[..k]))
  }

  lemma OtherDiedAfterInsert(obj: Obj, lin: seq<Entry>, lin': seq<Entry>, p: nat, e: Entry, d: nat)
    requires Resumes(lin, lin', p, e) && Died(obj, lin, d) && d != p
    ensures Died(obj, lin', if d >= p then d + 1 else d)
  {
    if d > p {
      assert lin'[d + 1] == lin[d];
    } else {
      assert lin'[..d] == lin[..d];
    }
  }

  lemma OwnDiedAfterInsert(obj: Obj, obj': Obj, lin: seq<Entry>, lin': seq<Entry>, p: nat, e: Entry)
    requires Resumes(lin, lin', p, e) && Died(obj, lin, p)
    requires !e.op.Stats? && obj'.name == obj.name == e.op.name
    requires Replay(lin'[..p + 1]) == Replay(lin[..p])[e.op.name := obj'.q]
    ensures Died(obj', lin', p + 1)
  {
    assert lin'[p + 1] == lin[p];
  }

  lemma DiedAfterInsert(s: State, s': State, lin: seq<Entry>, e: Entry, died: map<nat, nat>, o: nat,
                        lin': seq<Entry>, q: nat)
    requires Buried(s, lin, died) && WorksOn(s, s', o, e)
    requires o in died && Resumes(lin, lin', died[o], e) && q < |s.heap| && !Alive(s, q)
    requires Replay(lin'[..died[o] + 1]) == Replay(lin[..died[o]])[e.op.name := s'.heap[o].q]
    ensures q in died && Died(s'.heap[q], lin', Shifted(died, died[o])[q])
  {
    assert !Alive(s, o) && Died(s.heap[o], lin, died[o]) && Died(s.heap[q], lin, died[q]);
    hide Died, Alive, Replay, OnQueue, Resumes;
    if q == o {
      OwnDiedAfterInsert(s.heap[o], s'.heap[o], lin, lin', died[o], e);
    } else {
      OtherDiedAfterInsert(s.heap[q], lin, lin', died[o], e, died[q]);
    }
  }

  lemma ShiftedInjective(died: map<nat, nat>, p: nat)
    requires forall o, q :: o in died && q in died && o != q ==> died[o] != died[q]
    ensures var died' := Shifted(died, p); forall o, q :: o in died' && q in died' && o != q ==> died'[o] != died'[q]
  {
  }

  lemma BuriedAfterDeadWork(s: State, s': State, lin: seq<Entry>, e: Entry, died: map<nat, nat>, o: nat,
                            lin': seq<Entry>)
    requires Buried(s, lin, died) && WorksOn(s, s', o, e)
    requires o in died && Resumes(lin, lin', died[o], e)
    requires Replay(lin'[..died[o] + 1]) == Replay(lin[..died[o]])[e.op.name := s'.heap[o].q]
    ensures Buried(s', lin', Shifted(died, died[o]))
  {
    WorkKeepsAlive(s, s', o, e);
    ShiftedInjective(died, died[o]);
    assert Shifted(died, died[o]).Keys == died.Keys;
    hide Died, Alive, Replay, OnQueue, Resumes, Shifted;
    forall q | 0 <= q < |s'.heap| && !Alive(s', q)
      ensures q in died && Died(s'.heap[q], lin', Shifted(died, died[o])[q])
    {
      DiedAfterInsert(s, s', lin, e, died, o, lin', q);
    }
  }

  // ---- Lock order ----

  ghost predicate ListedBefore(lin: seq<Entry>, end: nat, c: nat) {
    exists x :: 0 <= x < end && x < |lin| && lin[x].id == c
  }

  ghost predicate Before(lin: seq<Entry>, a: nat, b: nat) {
    forall x, y :: 0 <= x < |lin| && 0 <= y < |lin| && lin[x].id == a && lin[y].id == b ==> x < y
  }

  // The calls that worked on a queue come before `end`, in the order in which
  // they had its lock.
  ghost predicate InLockOrder(obj: Obj, lin: seq<Entry>, end: nat) {
    && (forall i :: 0 <= i < |obj.workers| ==> ListedBefore(lin, end, obj.workers[i]))
    && (forall i, j :: 0 <= i < j < |obj.workers| ==> Before(lin, obj.workers[i], obj.workers[j]))
  }

  // The late ones come immediately before `p`, in that order.
  ghost predicate LateJustBefore(obj: Obj, lin: seq<Entry>, p: nat) {
    && |obj.late| <= p <= |lin|
    && var window := lin[p - |obj.late|..p];
       forall i :: 0 <= i < |window| ==> window[i].id == obj.late[i] && (window[i].op.Put? || window[i].op.Get?)
  }

  // A dead queue's calls come before its delete, and a live queue has no late ones.
  ghost predicate Placed(obj: Obj, lin: seq<Entry>, died: map<nat, nat>, o: nat) {
    if o in died then InLockOrder(obj, lin, died[o]) && LateJustBefore(obj, lin, died[o])
    else InLockOrder(obj, lin, |lin|) && obj.late == []
  }

  ghost predicate LockOrdered(heap: seq<Obj>, lin: seq<Entry>, died: map<nat, nat>) {
    forall o :: 0 <= o < |heap| ==> Placed(heap[o], lin, died, o)
  }

  ghost predicate Deaths(heap: seq<Obj>, lin: seq<Entry>, died: map<nat, nat>) {
    && (forall o :: o in died ==> o < |heap| && died[o] < |lin| && lin[died[o]].op.Delete?)
    && (forall o, p :: o in died && p in died && o != p ==> died[o] != died[p])
  }

  lemma BuriedDeaths(s: State, lin: seq<Entry>, died: map<nat, nat>)
    requires Buried(s, lin, died)
    ensures Deaths(s.heap, lin, died)
  {
    hide Alive, Replay;
    forall o | o in died ensures o < |s.heap| && died[o] < |lin| && lin[died[o]].op.Delete? {
      assert Died(s.heap[o], lin, died[o]);
    }
  }

  lemma ListedBeforeStays(lin: seq<Entry>, p: nat, e: Entry, end: nat, c: nat)
    requires p <= |lin| && ListedBefore(lin, end, c)
    ensures ListedBefore(Insert(lin, p, e), if end > p then end + 1 else end, c)
    ensures ListedBefore(Insert(lin, p, e), end + 1, c)
  {
    var x :| 0 <= x < end && x < |lin| && lin[x].id == c;
    assert Insert(lin, p, e)[if x < p then x else x + 1].id == c;
  }

  lemma BeforeStays(lin: seq<Entry>, p: nat, e: Entry, a: nat, b: nat)
    requires p <= |lin| && Before(lin, a, b) && e.id != a && e.id != b
    ensures Before(Insert(lin, p, e), a, b)
  {
    var lin' := Insert(lin, p, e);
    forall x, y | 0 <= x < |lin'| && 0 <= y < |lin'| && lin'[x].id == a && lin'[y].id == b ensures x < y {
      assert lin'[x] == lin[if x < p then x else x - 1] && lin'[y] == lin[if y < p then y else y - 1];
    }
  }

  lemma BeforeNewcomer(lin: seq<Entry>, p: nat, e: Entry, a: nat)
    requires p <= |lin| && Distinct(lin) && ListedBefore(lin, p, a) && !Listed(lin, e.id)
    ensures Before(Insert(lin, p, e), a, e.id)
  {
    var lin' := Insert(lin, p, e);
    var x0 :| 0 <= x0 < p && lin[x0].id == a;
    forall x, y | 0 <= x < |lin'| && 0 <= y < |lin'| && lin'[x].id == a && lin'[y].id == e.id ensures x < y {
      assert y == p && x != p;
      assert lin'[x] == lin[if x < p then x else x - 1];
    }
  }

  lemma ListedBeforeMeans(lin: seq<Entry>, end: nat, c: nat)
    requires ListedBefore(lin, end, c)
    ensures Listed(lin, c)
  {
  }

  // An entry of somebody else's changes nothing about a queue's order.
  lemma InLockOrderStays(obj: Obj, lin: seq<Entry>, p: nat, e: Entry, end: nat, end': nat)
    requires InLockOrder(obj, lin, end) && p <= |lin| && !Listed(lin, e.id)
    requires end' == end + 1 || (end <= p && end' == end)
    ensures InLockOrder(obj, Insert(lin, p, e), end')
  {
    hide ListedBefore, Listed, Before, Insert;
    forall i | 0 <= i < |obj.workers|
      ensures obj.workers[i] != e.id && ListedBefore(Insert(lin, p, e), end', obj.workers[i])
    {
      ListedBeforeMeans(lin, end, obj.workers[i]);
      ListedBeforeStays(lin, p, e, end, obj.workers[i]);
    }
    forall i, j | 0 <= i < j < |obj.workers| ensures Before(Insert(lin, p, e), obj.workers[i], obj.workers[j]) {
      BeforeStays(lin, p, e, obj.workers[i], obj.workers[j]);
    }
  }

  lemma WorkerJoins(obj: Obj, obj': Obj, lin: seq<Entry>, p: nat, e: Entry)
    requires InLockOrder(obj, lin, p) && p <= |lin| && Distinct(lin) && !Listed(lin, e.id)
    requires obj'.workers == obj.workers + [e.id]
    ensures InLockOrder(obj', Insert(lin, p, e), p + 1)
  {
    InLockOrderStays(obj, lin, p, e, p, p + 1);
    var lin' := Insert(lin, p, e);
    assert lin'[p].id == e.id;
    assert ListedBefore(lin', p + 1, e.id);
    hide ListedBefore, Before, Insert, Listed, Distinct;
    forall i | 0 <= i < |obj.workers| ensures Before(lin', obj.workers[i], e.id) {
      BeforeNewcomer(lin, p, e, obj.workers[i]);
    }
  }

  lemma NoDeleteAmongLate(obj: Obj, lin: seq<Entry>, end: nat, x: nat)
    requires LateJustBefore(obj, lin, end) && end - |obj.late| <= x < end
    ensures !lin[x].op.Delete?
  {
    var from := end - |obj.late|;
    assert lin[from..end][x - from] == lin[x];
  }

  lemma LateStays(obj: Obj, lin: seq<Entry>, p: nat, e: Entry, end: nat)
    requires LateJustBefore(obj, lin, end) && p <= |lin| && end != p && (p < |lin| ==> lin[p].op.Delete?)
    ensures LateJustBefore(obj, Insert(lin, p, e), if end >= p then end + 1 else end)
  {
    var lin' := Insert(lin, p, e);
    var from := end - |obj.late|;
    if p < end {
      if p >= from {
        NoDeleteAmongLate(obj, lin, end, p);
      }
      assert lin'[from + 1..end + 1] == lin[from..end];
    } else {
      assert lin'[from..end] == lin[from..end];
    }
  }

  lemma LateJoins(obj: Obj, obj': Obj, lin: seq<Entry>, p: nat, e: Entry)
    requires LateJustBefore(obj, lin, p) && obj'.late == obj.late + [e.id] && (e.op.Put? || e.op.Get?)
    ensures LateJustBefore(obj', Insert(lin, p, e), p + 1)
  {
    var from := p - |obj.late|;
    assert Insert(lin, p, e)[from..p + 1] == lin[from..p] + [e];
  }

  // The other queues when an entry is inserted before a delete or at the end.
  lemma OthersPlaced(obj: Obj, lin: seq<Entry>, p: nat, e: Entry, died: map<nat, nat>, o: nat)
    requires Placed(obj, lin, died, o) && p <= |lin| && !Listed(lin, e.id)
    requires o in died ==> died[o] != p && died[o] <= |lin|
    requires p < |lin| ==> lin[p].op.Delete?
    ensures Placed(obj, Insert(lin, p, e), Shifted(died, p), o)
  {
    assert |Insert(lin, p, e)| == |lin| + 1;
    hide InLockOrder, LateJustBefore, Insert, Listed;
    if o in died {
      InLockOrderStays(obj, lin, p, e, died[o], Shifted(died, p)[o]);
      LateStays(obj, lin, p, e, died[o]);
    } else {
      InLockOrderStays(obj, lin, p, e, |lin|, |lin| + 1);
    }
  }

  lemma EndKeepsLockOrder(heap: seq<Obj>, lin: seq<Entry>, e: Entry, died: map<nat, nat>)
    requires LockOrdered(heap, lin, died) && Deaths(heap, lin, died) && !Listed(lin, e.id)
    ensures LockOrdered(heap, lin + [e], died)
  {
    assert Insert(lin, |lin|, e) == lin + [e] && Shifted(died, |lin|) == died;
    hide Placed, Insert, Shifted, Listed;
    forall o | 0 <= o < |heap| ensures Placed(heap[o], lin + [e], died, o) {
      OthersPlaced(heap[o], lin, |lin|, e, died, o);
    }
  }

  // Inside the broker lock nobody works on a queue.
  lemma InsideKeepsLockOrder(s: State, s': State, lin: seq<Entry>, e: Entry, died: map<nat, nat>)
    requires !e.op.Stats? && Writes(s, s', e.op) && TableOk(s.heap, s.table)
    requires LockOrdered(s.heap, lin, died) && Buried(s, lin, died) && !Listed(lin, e.id)
    ensures LockOrdered(s'.heap, lin + [e], DiedNow(s.table, died, e.op, |lin|))
  {
    BuriedDeaths(s, lin, died);
    EndKeepsLockOrder(s.heap, lin, e, died);
    match OutcomeOf(s.table, e.op) {
      case Created =>
        assert |s.heap| !in died;
        assert Placed(NewObj(e.op.name), lin + [e], died, |s.heap|);
        hide Placed;
      case Removed =>
        var o := s.table[e.op.name];
        assert Alive(s, o) && o !in died;
        assert Placed(s.heap[o], lin, died, o);
        assert Insert(lin, |lin|, e) == lin + [e];
        InLockOrderStays(s.heap[o], lin, |lin|, e, |lin|, |lin|);
        assert LateJustBefore(s.heap[o], lin + [e], |lin|);
        hide InLockOrder, LateJustBefore, Alive, Died;
        RemovedPlaced(s.heap, lin + [e], died, o, |lin|);
      case Idle =>
    }
  }

  lemma RemovedPlaced(heap: seq<Obj>, lin: seq<Entry>, died: map<nat, nat>, gone: nat, p: nat)
    requires LockOrdered(heap, lin, died) && gone < |heap|
    requires InLockOrder(heap[gone], lin, p) && LateJustBefore(heap[gone], lin, p)
    ensures LockOrdered(heap, lin, died[gone := p])
  {
    hide InLockOrder, LateJustBefore;
    forall o | 0 <= o < |heap| ensures Placed(heap[o], lin, died[gone := p], o) {
      assert Placed(heap[o], lin, died, o);
    }
  }

  // Where work on a queue goes in the order.
  function PlaceOf(lin: seq<Entry>, died: map<nat, nat>, o: nat): nat {
    if o in died then died[o] else |lin|
  }

  lemma WorkKeepsLockOrder(s: State, s': State, lin: seq<Entry>, e: Entry, died: map<nat, nat>, o: nat)
    requires WorksOn(s, s', o, e) && LockOrdered(s.heap, lin, died) && Buried(s, lin, died)
    requires Distinct(lin) && !Listed(lin, e.id) && (!Alive(s, o) ==> e.op.Put? || e.op.Get?)
    ensures var p := PlaceOf(lin, died, o);
            p <= |lin| && LockOrdered(s'.heap, Insert(lin, p, e), Shifted(died, p))
  {
    BuriedDeaths(s, lin, died);
    var p := PlaceOf(lin, died, o);
    WorkedPlaced(s, s', lin, e, died, o, p);
    hide Placed, Insert, Shifted, Listed, Distinct, Buried, OnQueue, Alive;
    forall q | 0 <= q < |s'.heap| ensures Placed(s'.heap[q], Insert(lin, p, e), Shifted(died, p), q) {
      if q != o {
        OthersPlaced(s.heap[q], lin, p, e, died, q);
      }
    }
  }

  lemma WorkedPlaced(s: State, s': State, lin: seq<Entry>, e: Entry, died: map<nat, nat>, o: nat, p: nat)
    requires WorksOn(s, s', o, e) && Placed(s.heap[o], lin, died, o) && Buried(s, lin, died)
    requires Distinct(lin) && !Listed(lin, e.id) && (!Alive(s, o) ==> e.op.Put? || e.op.Get?)
    requires p == PlaceOf(lin, died, o) <= |lin|
    ensures Placed(s'.heap[o], Insert(lin, p, e), Shifted(died, p), o)
  {
    assert o in died <==> !Alive(s, o);
    assert |Insert(lin, p, e)| == |lin| + 1;
    hide Buried, Insert, Listed, Distinct, OnQueue, InLockOrder, LateJustBefore, Alive;
    WorkerJoins(s.heap[o], s'.heap[o], lin, p, e);
    if o in died {
      LateJoins(s.heap[o], s'.heap[o], lin, p, e);
    }
  }

  // ---- One step of the construction ----

  lemma ShiftedAtEnd(s: State, lin: seq<Entry>, died: map<nat, nat>, e: Entry)
    requires Mirrors(s, lin, died)
    ensures Shifted(died, |lin|) == died && Insert(lin, |lin|, e) == lin + [e]
  {
    forall o | o in died ensures died[o] < |lin| {
      assert !Alive(s, o);
      DiedMeans(s.heap[o], lin, died[o]);
    }
  }

  ghost predicate Ordered(s: State, lin: seq<Entry>, died: map<nat, nat>) {
    && Clocked(s) && Legal(lin) && Matches(s.calls, lin) && RealTime(s.calls, lin)
    && Mirrors(s, lin, died) && LateCallsFit(s, lin, died) && LockOrdered(s.heap, lin, died)
  }

  // A step that does not finish anything.
  lemma QuietStep(s: State, s': State, c: nat, lin: seq<Entry>, died: map<nat, nat>)
    requires Ordered(s, lin, died) && Moves(s, s', c)
    requires s'.heap == s.heap && s'.table == s.table
    requires HasEffect(s'.calls[c]) ==> c < |s.calls| && HasEffect(s.calls[c])
    requires OnAQueue(s'.calls[c].pc) ==>
               || (c < |s.calls| && OnAQueue(s.calls[c].pc) && s.calls[c].pc.o == s'.calls[c].pc.o)
               || Alive(s, s'.calls[c].pc.o)
    ensures Ordered(s', lin, died)
  {
    hide Moves, Clocked, Legal, Matches, RealTime, LateCallsFit, LockOrdered, HasEffect;
    MovesClocked(s, s', c);
    QuietMatches(s, s', c, lin);
    QuietRealTime(s, s', c, lin);
    QuietLateCalls(s, s', c, lin, died);
    MirrorsSame(s, s', lin, died);
  }

  lemma MirrorsSame(s: State, s': State, lin: seq<Entry>, died: map<nat, nat>)
    requires Mirrors(s, lin, died) && s'.heap == s.heap && s'.table == s.table
    ensures Mirrors(s', lin, died)
  {
    hide Died, Replay;
    assert forall o :: Alive(s', o) == Alive(s, o);
  }

  // A call takes its place in the order.
  lemma Inserted(s: State, s': State, c: nat, lin: seq<Entry>, died: map<nat, nat>, p: nat, e: Entry)
    requires Clocked(s) && Matches(s.calls, lin) && RealTime(s.calls, lin) && LateCallsFit(s, lin, died)
    requires Moves(s, s', c) && c < |s.calls| && p <= |lin| && MayGoBefore(s.calls, lin, p, c)
    requires !HasEffect(s.calls[c]) && !s.calls[c].op.Stats? && !s.calls[c].pc.Returned?
    requires s'.calls[c].pc.Leave? && s'.calls[c].pc.res == e.res && e.id == c && e.op == s.calls[c].op
    ensures Clocked(s') && Matches(s'.calls, Insert(lin, p, e)) && RealTime(s'.calls, Insert(lin, p, e))
    ensures LateCallsFit(s', Insert(lin, p, e), Shifted(died, p))
  {
    hide Moves, Clocked, Matches, RealTime, LateCallsFit, HasEffect, MayGoBefore, Insert, Shifted;
    MovesClocked(s, s', c);
    InsertedMatches(s, s', c, lin, p, e);
    InsertedRealTime(s, s', c, lin, p, e);
    InsertedLateCalls(s, s', c, lin, p, e, died);
  }

  lemma EffectAtEnd(s: State, s': State, c: nat, lin: seq<Entry>, died: map<nat, nat>, e: Entry)
    requires Ordered(s, lin, died) && Moves(s, s', c) && c < |s.calls|
    requires !HasEffect(s.calls[c]) && !s.calls[c].op.Stats? && !s.calls[c].pc.Returned?
    requires s'.calls[c].pc.Leave? && s'.calls[c].pc.res == e.res && e.id == c && e.op == s.calls[c].op
    requires Alone(Replay(lin), c, e.op).1 == e.res
    ensures Clocked(s') && Legal(lin + [e]) && Matches(s'.calls, lin + [e]) && RealTime(s'.calls, lin + [e])
    ensures LateCallsFit(s', lin + [e], died)
  {
    assert MayGoBefore(s.calls, lin, |lin|, c);
    hide Moves, Clocked, Mirrors, Matches, RealTime, LateCallsFit, HasEffect, Alone, Replay, Legal, MayGoBefore;
    Snoc(lin, e);
    ShiftedAtEnd(s, lin, died, e);
    Inserted(s, s', c, lin, died, |lin|, e);
  }

  lemma NotYetListed(s: State, c: nat, lin: seq<Entry>)
    requires Matches(s.calls, lin) && c < |s.calls| && !HasEffect(s.calls[c]) && !s.calls[c].op.Stats?
    ensures Distinct(lin) && !Listed(lin, c)
  {
    if i :| 0 <= i < |lin| && lin[i].id == c {
      assert Recorded(s.calls, lin[i]);
    }
  }

  // A call finishes on a queue that is gone.
  lemma LateCallFits(s: State, c: nat, lin: seq<Entry>, died: map<nat, nat>, o: nat)
    requires Ordered(s, lin, died) && c < |s.calls| && s.calls[c].pc == InQ(o) && o in died
    ensures MayGoBefore(s.calls, lin, died[o], c) && died[o] < |lin|
  {
    assert !Alive(s, o);
    DiedMeans(s.heap[o], lin, died[o]);
  }

  lemma EffectBeforeDelete(s: State, s': State, c: nat, lin: seq<Entry>, died: map<nat, nat>, e: Entry, o: nat)
    requires Ordered(s, lin, died) && TableOk(s.heap, s.table) && Moves(s, s', c) && c < |s.calls|
    requires s.calls[c].pc == InQ(o) && (e.op.Put? || e.op.Get?)
    requires s'.calls[c].pc.Leave? && s'.calls[c].pc.res == e.res && e.id == c && e.op == s.calls[c].op
    requires o in died && WorksOn(s, s', o, e) && OnQueue(s.heap[o].q, c, e.op).1 == e.res
    ensures Ordered(s', Insert(lin, died[o], e), Shifted(died, died[o]))
  {
    LateCallFits(s, c, lin, died, o);
    NotYetListed(s, c, lin);
    WorkKeepsLockOrder(s, s', lin, e, died, o);
    assert PlaceOf(lin, died, o) == died[o];
    hide LockOrdered, PlaceOf, Moves, Clocked, Mirrors, Matches, RealTime, LateCallsFit, Legal, OnQueue, MayGoBefore;
    hide TableOk, Insert, Shifted, WorksOn;
    Inserted(s, s', c, lin, died, died[o], e);
    MirrorsDeadWork(s, s', lin, e, died, o);
  }

  // What happens inside the broker lock, by outcome.
  datatype Outcome = Created | Removed | Idle

  function OutcomeOf(table: map<string, nat>, op: Op): Outcome
    requires !op.Stats?
  {
    if op.Create? && op.name !in table then Created
    else if op.Delete? && op.name in table then Removed
    else Idle
  }

  // A call that finishes inside the broker lock does what it would do alone.
  lemma InsideIsAlone(s: State, c: nat, table: Table)
    requires c < |s.calls| && Inside(s, c).calls[c].pc.Leave? && Reflects(s, table)
    ensures !s.calls[c].op.Stats?
    ensures Alone(table, c, s.calls[c].op).1 == Inside(s, c).calls[c].pc.res
    ensures OutcomeOf(s.table, s.calls[c].op).Idle? ==> Alone(table, c, s.calls[c].op).0 == table
  {
    var op := s.calls[c].op;
    if !op.Stats? && op.Put? && op.name in table {
      assert table[op.name := table[op.name]] == table;
    }
  }

  ghost predicate Writes(s: State, s': State, op: Op)
    requires !op.Stats?
  {
    match OutcomeOf(s.table, op)
    case Created => s'.heap == s.heap + [NewObj(op.name)] && s'.table == s.table[op.name := |s.heap|]
    case Removed => s'.heap == s.heap && s'.table == s.table - {op.name}
    case Idle => s'.heap == s.heap && s'.table == s.table
  }

  lemma InsideWrites(s: State, c: nat)
    requires c < |s.calls| && !s.calls[c].op.Stats? && Inside(s, c).calls[c].pc.Leave?
    ensures Writes(s, Inside(s, c), s.calls[c].op)
  {
  }

  // Where the deletes are once this call is at the end of the order.
  function DiedNow(table: map<string, nat>, died: map<nat, nat>, op: Op, end: nat): map<nat, nat>
    requires !op.Stats?
  {
    if OutcomeOf(table, op).Removed? then died[table[op.name] := end] else died
  }

  lemma MirrorsAfter(s: State, s': State, lin: seq<Entry>, e: Entry, died: map<nat, nat>)
    requires !e.op.Stats? && Writes(s, s', e.op)
    requires TableOk(s.heap, s.table) && Mirrors(s, lin, died)
    requires OutcomeOf(s.table, e.op).Idle? ==> Alone(Replay(lin), e.id, e.op).0 == Replay(lin)
    ensures Mirrors(s', lin + [e], DiedNow(s.table, died, e.op, |lin|))
  {
    hide Alone, Replay, TableOk, Mirrors;
    match OutcomeOf(s.table, e.op) {
      case Created => MirrorsCreate(s, s', lin, e, died, e.op.name);
      case Removed => MirrorsDelete(s, s', lin, e, died, e.op.name);
      case Idle => MirrorsIdle(s, s', lin, e, died);
    }
  }

  // Nobody can be too late for a delete that has not returned.
  lemma LateCallsAfterDelete(s: State, lin: seq<Entry>, e: Entry, died: map<nat, nat>, o: nat)
    requires LateCallsFit(s, lin + [e], died) && Clocked(s) && e.id < |s.calls| && !s.calls[e.id].pc.Returned?
    ensures LateCallsFit(s, lin + [e], died[o := |lin|])
  {
    var lin' := lin + [e];
    var died' := died[o := |lin|];
    forall d, j | 0 <= d < |s.calls| && OnAQueue(s.calls[d].pc) && s.calls[d].pc.o in died'
                  && died'[s.calls[d].pc.o] <= j < |lin'|
      ensures !Precedes(s.calls, lin'[j].id, d)
    {
      if s.calls[d].pc.o != o {
        assert MayGoBefore(s.calls, lin', died[s.calls[d].pc.o], d);
      }
    }
  }

  lemma FinishedInside(s: State, s': State, c: nat, lin: seq<Entry>, died: map<nat, nat>, e: Entry)
    returns (died': map<nat, nat>)
    requires Ordered(s, lin, died) && TableOk(s.heap, s.table) && Moves(s, s', c) && c < |s.calls|
    requires s.calls[c].pc.InB? && e.id == c && e.op == s.calls[c].op && !e.op.Stats? && Writes(s, s', e.op)
    requires s'.calls[c].pc.Leave? && s'.calls[c].pc.res == e.res == Alone(Replay(lin), c, e.op).1
    requires OutcomeOf(s.table, e.op).Idle? ==> Alone(Replay(lin), c, e.op).0 == Replay(lin)
    ensures Ordered(s', lin + [e], died')
  {
    assert c < |s'.calls|;
    NotYetListed(s, c, lin);
    InsideKeepsLockOrder(s, s', lin, e, died);
    hide LockOrdered, Clocked, Legal, Matches, RealTime, LateCallsFit, Mirrors, Moves, Alone, Replay, TableOk, Writes;
    EffectAtEnd(s, s', c, lin, died, e);
    MirrorsAfter(s, s', lin, e, died);
    died' := DiedNow(s.table, died, e.op, |lin|);
    if died' != died {
      LateCallsAfterDelete(s', lin, e, died, s.table[e.op.name]);
    }
  }

  lemma InsideStep(s: State, c: nat, lin: seq<Entry>, died: map<nat, nat>)
    returns (lin': seq<Entry>, died': map<nat, nat>)
    requires Enabled(s, Move(c)) && AllSound(s) && Ordered(s, lin, died)
    requires s.calls[c].pc.InB? && Inside(s, c).calls[c].pc.Leave?
    ensures Ordered(Inside(s, c), lin', died')
  {
    var s' := Inside(s, c);
    StepMoves(s, Move(c));
    InsideIsAlone(s, c, Replay(lin));
    InsideWrites(s, c);
    var e := Entry(c, s.calls[c].op, s'.calls[c].pc.res);
    hide Inside, Moves, Mirrors, Clocked, Legal, Matches, RealTime, LateCallsFit, Reflects, Alone, Replay, TableOk;
    hide Writes, OutcomeOf;
    died' := FinishedInside(s, s', c, lin, died, e);
    lin' := lin + [e];
  }

  // A step that finishes nothing leaves the queues alone, and goes to work only
  // on a live queue or on the one it was already working on.
  lemma QuietMeans(s: State, e: Step)
    requires Enabled(s, e) && AllSound(s)
    requires e.Move? ==> !s.calls[e.c].pc.InQ?
    requires e.Move? && s.calls[e.c].pc.InB? ==> !Inside(s, e.c).calls[e.c].pc.Leave?
    ensures var s', c := Act(s, e), Mover(s, e);
            && s'.heap == s.heap && s'.table == s.table
            && (HasEffect(s'.calls[c]) ==> c < |s.calls| && HasEffect(s.calls[c]))
            && (OnAQueue(s'.calls[c].pc) ==>
                  || (c < |s.calls| && OnAQueue(s.calls[c].pc) && s.calls[c].pc.o == s'.calls[c].pc.o)
                  || Alive(s, s'.calls[c].pc.o))
  {
    hide Worked, OnQueue, RowOf, Sound, GrantsB, GrantsQ;
    if !e.Invoke? {
      assert Sound(s.heap, s.table, s.calls[e.c]);
      if s.calls[e.c].pc.Scan? || s.calls[e.c].pc.ScanIn? {
        ScansAreStats(s.heap, s.table, s.calls[e.c]);
      }
    }
  }

  lemma ScansAreStats(heap: seq<Obj>, table: map<string, nat>, call: Call)
    requires Sound(heap, table, call) && InScan(call.pc)
    ensures call.op.Stats?
  {
  }

  lemma OtherStep(s: State, e: Step, lin: seq<Entry>, died: map<nat, nat>)
    requires Enabled(s, e) && AllSound(s) && Ordered(s, lin, died)
    requires e.Move? ==> !s.calls[e.c].pc.InQ?
    requires e.Move? && s.calls[e.c].pc.InB? ==> !Inside(s, e.c).calls[e.c].pc.Leave?
    ensures Ordered(Act(s, e), lin, died)
  {
    StepMoves(s, e);
    QuietMeans(s, e);
    var s' := Act(s, e);
    hide Ordered, Act, Enabled, Moves, HasEffect, AllSound, Alive, Inside;
    QuietStep(s, s', Mover(s, e), lin, died);
  }

  // What happens inside a queue's lock.
  lemma FinishedInQueue(s: State, s': State, c: nat, lin: seq<Entry>, died: map<nat, nat>, o: nat, e: Entry)
    returns (lin': seq<Entry>, died': map<nat, nat>)
    requires Ordered(s, lin, died) && TableOk(s.heap, s.table) && Moves(s, s', c) && c < |s.calls|
    requires s.calls[c].pc == InQ(o) && o < |s.heap|
    requires e.id == c && e.op == s.calls[c].op && (e.op.Put? || e.op.Get? || e.op.Drain?)
    requires s.heap[o].name == e.op.name
    requires e.op.Drain? ==> Alive(s, o)
    requires OnQueue(s.heap[o].q, c, e.op).1 == e.res
    requires s'.calls[c].pc.Leave? && s'.calls[c].pc.res == e.res
    requires s'.heap == s.heap[o := Worked(s.heap[o], c, e.op, Alive(s, o))] && s'.table == s.table
    ensures Ordered(s', lin', died')
  {
    WorkedOn(s, s', o, e);
    if Alive(s, o) {
      hide Ordered, Moves, OnQueue, Worked, TableOk, WorksOn;
      FinishedOnLive(s, s', c, lin, died, o, e);
      lin', died' := lin + [e], died;
    } else {
      assert o in died;
      hide Ordered, Moves, OnQueue, Worked, TableOk, WorksOn;
      EffectBeforeDelete(s, s', c, lin, died, e, o);
      lin', died' := Insert(lin, died[o], e), Shifted(died, died[o]);
    }
  }

  lemma FinishedOnLive(s: State, s': State, c: nat, lin: seq<Entry>, died: map<nat, nat>, o: nat, e: Entry)
    requires Ordered(s, lin, died) && TableOk(s.heap, s.table) && Moves(s, s', c) && c < |s.calls|
    requires s.calls[c].pc == InQ(o) && Alive(s, o)
    requires e.id == c && e.op == s.calls[c].op && (e.op.Put? || e.op.Get? || e.op.Drain?)
    requires s.heap[o].name == e.op.name
    requires OnQueue(s.heap[o].q, c, e.op).1 == e.res
    requires s'.calls[c].pc.Leave? && s'.calls[c].pc.res == e.res && WorksOn(s, s', o, e)
    ensures Ordered(s', lin + [e], died)
  {
    AloneOnLive(s, o, e, Replay(lin));
    NotYetListed(s, c, lin);
    LiveKeepsLockOrder(s, s', lin, e, died, o);
    hide LockOrdered, Clocked, Legal, Matches, RealTime, LateCallsFit, Moves;
    hide Worked, OnQueue, WorksOn, Mirrors, Alive, TableOk, Alone, Replay;
    EffectAtEnd(s, s', c, lin, died, e);
    MirrorsLiveWork(s, s', lin, e, died, o);
  }

  lemma LiveKeepsLockOrder(s: State, s': State, lin: seq<Entry>, e: Entry, died: map<nat, nat>, o: nat)
    requires WorksOn(s, s', o, e) && LockOrdered(s.heap, lin, died) && Mirrors(s, lin, died)
    requires Distinct(lin) && !Listed(lin, e.id) && Alive(s, o)
    ensures LockOrdered(s'.heap, lin + [e], died)
  {
    assert o !in died;
    ShiftedAtEnd(s, lin, died, e);
    hide LockOrdered, Alive, Distinct, Listed, Insert, Shifted, Died, OnQueue, Replay;
    WorkKeepsLockOrder(s, s', lin, e, died, o);
  }

  lemma AloneOnLive(s: State, o: nat, e: Entry, table: Table)
    requires Reflects(s, table) && Alive(s, o)
    requires (e.op.Put? || e.op.Get? || e.op.Drain?) && s.heap[o].name == e.op.name
    ensures Alone(table, e.id, e.op).1 == OnQueue(s.heap[o].q, e.id, e.op).1
  {
    hide OnQueue;
  }

  lemma QueueStep(s: State, c: nat, lin: seq<Entry>, died: map<nat, nat>)
    returns (lin': seq<Entry>, died': map<nat, nat>)
    requires Enabled(s, Move(c)) && AllSound(s) && Ordered(s, lin, died) && s.calls[c].pc.InQ?
    ensures Ordered(Act(s, Move(c)), lin', died')
  {
    StepMoves(s, Move(c));
    assert Sound(s.heap, s.table, s.calls[c]);
    var o, op := s.calls[c].pc.o, s.calls[c].op;
    var e := Entry(c, op, OnQueue(s.heap[o].q, c, op).1);
    hide Ordered, Moves, OnQueue, Worked, TableOk;
    lin', died' := FinishedInQueue(s, Act(s, Move(c)), c, lin, died, o, e);
  }

  lemma StepKeepsOrdered(s: State, e: Step, lin: seq<Entry>, died: map<nat, nat>)
    returns (lin': seq<Entry>, died': map<nat, nat>)
    requires Enabled(s, e) && AllSound(s) && Ordered(s, lin, died)
    ensures Ordered(Act(s, e), lin', died')
  {
    hide Ordered, Inside, Moves;
    if e.Move? && s.calls[e.c].pc.InQ? {
      lin', died' := QueueStep(s, e.c, lin, died);
    } else if e.Move? && s.calls[e.c].pc.InB? && Inside(s, e.c).calls[e.c].pc.Leave? {
      lin', died' := InsideStep(s, e.c, lin, died);
    } else {
      OtherStep(s, e, lin, died);
      lin', died' := lin, died;
    }
  }

  lemma {:induction false} RunIsOrdered(s: State, steps: seq<Step>, lin: seq<Entry>, died: map<nat, nat>)
    returns (lin': seq<Entry>, died': map<nat, nat>)
    requires AllSound(s) && Exclusion(s) && Ordered(s, lin, died) && Runs(s, steps)
    ensures Ordered(After(s, steps), lin', died')
    decreases |steps|
  {
    hide AllSound, Exclusion, Ordered, Act, Enabled;
    lin', died' := lin, died;
    if |steps| > 0 {
      StepKeepsSound(s, steps[0]);
      StepKeepsExclusion(s, steps[0]);
      lin', died' := StepKeepsOrdered(s, steps[0], lin, died);
      lin', died' := RunIsOrdered(Act(s, steps[0]), steps[1..], lin', died');
    }
  }

  // ---- The theorem ----

  // A sequential order of calls that explains a concurrent history: each call
  // that has returned is in it once, with its own operation and result; alone,
  // one after the other, the calls give those results; and a call that returned
  // before another was invoked comes first.
  ghost predicate Explains(calls: seq<Call>, lin: seq<Entry>) {
    && (forall i :: 0 <= i < |lin| ==>
          && lin[i].id < |calls| && calls[lin[i].id].op == lin[i].op && !lin[i].op.Stats?
          && (calls[lin[i].id].pc.Returned? ==> calls[lin[i].id].pc.res == lin[i].res))
    && (forall i, j :: 0 <= i < j < |lin| ==> lin[i].id != lin[j].id)
    && (forall c :: 0 <= c < |calls| && calls[c].pc.Returned? && !calls[c].op.Stats? ==> Listed(lin, c))
    && Legal(lin)
    && (forall i, j :: 0 <= i < j < |lin| ==> !Precedes(calls, lin[j].id, lin[i].id))
  }

  // Every run of the concurrent broker has such an order.  Replayed to its end it
  // gives the live queues; replayed up to the delete of a dead queue it gives that
  // queue as the late calls have left it.  The calls that worked on one queue come
  // in the order in which they had its lock, and those that did after its delete
  // stand immediately before it.
  lemma BrokerIsLinearizable(steps: seq<Step>) returns (lin: seq<Entry>, died: map<nat, nat>)
    requires Runs(INIT, steps)
    ensures Explains(After(INIT, steps).calls, lin)
    ensures Mirrors(After(INIT, steps), lin, died)
    ensures LockOrdered(After(INIT, steps).heap, lin, died)
  {
    lin, died := RunIsOrdered(INIT, steps, [], map[]);
    OrderedExplains(After(INIT, steps), lin, died);
  }

  lemma OrderedExplains(s: State, lin: seq<Entry>, died: map<nat, nat>)
    requires Ordered(s, lin, died)
    ensures Explains(s.calls, lin)
  {
    hide Legal, Mirrors, LateCallsFit, LockOrdered, Clocked, Precedes;
    forall i | 0 <= i < |lin| ensures Recorded(s.calls, lin[i]) {
    }
    forall c | 0 <= c < |s.calls| && s.calls[c].pc.Returned? && !s.calls[c].op.Stats? ensures Listed(lin, c) {
      assert HasEffect(s.calls[c]);
    }
  }
}
