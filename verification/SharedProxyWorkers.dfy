/** Workers interleaved at the granularity of API calls on one shared proxy.  Each
    loads its resource, reads the proxy, writes the merged proxy with a version
    check (or creates it), and then tries to record its annotations; a refused
    write sends the key back to the queue.  Meanwhile other resources leave the
    proxy, and delete it without a version check when they think it empty.  Only
    that can lose an accepted merge. */
module SharedProxyWorkers {
  import opened Wrappers
  import opened Objects
  import opened ProxyLists
  import R = Reconciler
  import opened Sweeps

  datatype Worker =
    | Idle
    | Loaded(u: CR)
    | Fetched(u: CR, seen: Option<Proxy>)
    | Wrote(u: CR, existed: bool)

  // A resource that leaves the proxy for good, with the prefix it recorded: it
  // reads the proxy, and then writes back what is left of it or deletes it.
  datatype Cleaner = Cleaner(uid: string, route: string, held: Option<Option<Proxy>>)

  // The stored resources, their workers, the proxy they share, the last version
  // given out, and for each resource the prefix of its last accepted proxy write
  // since the proxy was last deleted.  The work queue gives a key to one worker
  // at a time, so workers are numbered by resource.
  datatype State = State(checked: bool, crs: seq<CR>, workers: seq<Worker>, cleaners: seq<Cleaner>,
                         proxy: Option<Proxy>, version: nat, accepted: seq<Option<string>>)

  datatype Step =
    | Load(i: nat)
    | Skip(i: nat)
    | Fetch(i: nat)
    | Write(i: nat)
    | Annotate(i: nat, ok: bool)
    | Edit(i: nat, ruta: string, multiplicador: Option<int>)
    | Look(c: nat)
    | Leave(c: nat)

  // ---- The steps ----

  // Whether the API server accepts the worker's create or update.
  predicate Accepts(s: State, w: Worker)
    requires w.Fetched?
  {
    if w.seen.None? then s.proxy.None?
    else Updates(s, w.seen.value)
  }

  predicate Updates(s: State, seen: Proxy) {
    s.proxy.Some? && (s.checked ==> s.proxy.value.rv == seen.rv)
  }

  function Merged(s: State, w: Worker): Proxy
    requires w.Fetched? && Accepts(s, w)
  {
    if w.seen.None? then R.NewProxy(w.u).(rv := s.version + 1)
    else R.Bumped(s.checked, s.proxy.value, R.Merge(w.seen.value, w.u))
  }

  // What a cleaner makes of the copy it holds.
  function Stripped(c: Cleaner): Proxy
    requires c.held.Some? && c.held.value.Some?
  {
    R.Strip(c.held.value.value, c.uid, c.route)
  }

  predicate FindsItEmpty(c: Cleaner) {
    && c.held.Some? && c.held.value.Some?
    && Stripped(c).owners == [] && Stripped(c).routes == []
  }

  predicate Sized(s: State) {
    |s.workers| == |s.crs| == |s.accepted|
  }

  // `rutas[i]` is what the user may ever ask for resource i, besides nothing.
  predicate Enabled(rutas: seq<set<string>>, s: State, e: Step) {
    && Sized(s) && |rutas| == |s.crs|
    && (if e.Look? || e.Leave? then e.c < |s.cleaners| else e.i < |s.crs|)
    && match e
       case Load(i) => s.workers[i].Idle?
       case Skip(i) => s.workers[i].Loaded? && !Registers(s.workers[i].u)
       case Fetch(i) => s.workers[i].Loaded? && Registers(s.workers[i].u)
       case Write(i) => s.workers[i].Fetched?
       // an accepted annotation write was made on the current spec
       case Annotate(i, ok) => s.workers[i].Wrote? && (ok ==> s.crs[i].spec == s.workers[i].u.spec)
       case Edit(i, ruta, _) => ruta == "" || ruta in rutas[i]
       case Look(c) => s.cleaners[c].held.None?
       case Leave(c) => s.cleaners[c].held.Some?
  }

  function Stored(s: State, p: Proxy): State {
    s.(proxy := Some(p), version := p.rv)
  }

  // A cleaner ignores whether its update was accepted; its delete always is.
  function Left(s: State, c: Cleaner): State {
    if c.held.None? || c.held.value.None? then s
    else if FindsItEmpty(c) then s.(proxy := None, accepted := seq(|s.accepted|, _ => None))
    else if !Updates(s, c.held.value.value) then s
    else Stored(s, R.Bumped(s.checked, s.proxy.value, Stripped(c)))
  }

  function Act(rutas: seq<set<string>>, s: State, e: Step): State
    requires Enabled(rutas, s, e)
  {
    match e
    case Load(i) => s.(workers := s.workers[i := Loaded(s.crs[i])])
    case Skip(i) => s.(workers := s.workers[i := Idle])
    case Fetch(i) => s.(workers := s.workers[i := Fetched(s.workers[i].u, s.proxy)])
    case Write(i) =>
      var w := s.workers[i];
      if Accepts(s, w) then
        Stored(s, Merged(s, w)).(workers := s.workers[i := Wrote(w.u, w.seen.Some?)],
                                 accepted := s.accepted[i := Some(PrefixOf(w.u))])
      else s.(workers := s.workers[i := Idle])
    case Annotate(i, ok) =>
      var w := s.workers[i];
      s.(workers := s.workers[i := Idle],
         crs := if ok then s.crs[i := R.Indexed(w.u, w.existed)] else s.crs)
    case Edit(i, ruta, m) =>
      s.(crs := s.crs[i := s.crs[i].(spec := s.crs[i].spec.(ruta := ruta, multiplicador := m))])
    case Look(c) => s.(cleaners := s.cleaners[c := s.cleaners[c].(held := Some(s.proxy))])
    case Leave(c) => Left(s, s.cleaners[c]).(cleaners := s.cleaners[c := s.cleaners[c].(held := None)])
  }

  predicate Runs(rutas: seq<set<string>>, s: State, steps: seq<Step>)
    decreases |steps|
  {
    |steps| > 0 ==> Enabled(rutas, s, steps[0]) && Runs(rutas, Act(rutas, s, steps[0]), steps[1..])
  }

  function After(rutas: seq<set<string>>, s: State, steps: seq<Step>): State
    requires Runs(rutas, s, steps)
    decreases |steps|
  {
    if |steps| == 0 then s else After(rutas, Act(rutas, s, steps[0]), steps[1..])
  }

  // ---- The tenants of the proxy ----

  // Whatever record or copy of resource i there is, it has i's identity, wants
  // this proxy, and wants and records only i's prefixes.
  predicate CopyOf(rutas: set<string>, proxyName: string, id: CR, u: CR) {
    && u.uid == id.uid && u.name == id.name
    && ProxyName(u) == proxyName
    && (u.spec.ruta == "" || u.spec.ruta in rutas)
    && (u.ann.proxy != "" && u.ann.route != "" ==> exists r :: r in rutas && u.ann.route == Slash(r))
  }

  predicate Tenants(rutas: seq<set<string>>, proxyName: string, ids: seq<CR>) {
    && |rutas| == |ids| && proxyName != ""
    && (forall i, j :: 0 <= i < j < |ids| ==> ids[i].uid != ids[j].uid)
    && (forall i, j :: 0 <= i < j < |rutas| ==> rutas[i] !! rutas[j])
  }

  // A cleaner is none of the tenants, and its prefix is none of theirs.
  predicate Stranger(rutas: seq<set<string>>, ids: seq<CR>, c: Cleaner) {
    && (forall i :: 0 <= i < |ids| ==> ids[i].uid != c.uid)
    && (forall i, r :: 0 <= i < |rutas| && r in rutas[i] ==> Slash(r) != c.route)
  }

  // Resource i's accepted write is in the proxy: its owner entry, and its route.
  ghost predicate InPlace(p: Proxy, id: CR, prefix: string) {
    OwnedBy(p.owners, id.uid) && Lookup(p.routes, prefix) == Some(ServiceName(id.name))
  }

  // A copy of the proxy at the current version is the current proxy.
  predicate Faithful(s: State, seen: Option<Proxy>) {
    seen.Some? ==>
      seen.value.rv <= s.version && (s.proxy.Some? && seen.value.rv == s.proxy.value.rv ==> seen == s.proxy)
  }

  ghost predicate WorkerOk(rutas: set<string>, proxyName: string, id: CR, s: State, w: Worker) {
    !w.Idle? ==>
      && CopyOf(rutas, proxyName, id, w.u)
      && (w.Fetched? || w.Wrote? ==> Registers(w.u))
      && (w.Fetched? ==> Faithful(s, w.seen))
  }

  ghost predicate AcceptedOk(rutas: set<string>, id: CR, proxy: Option<Proxy>, accepted: Option<string>) {
    accepted.Some? ==>
      && proxy.Some?
      && (exists r :: r in rutas && accepted.value == Slash(r))
      && InPlace(proxy.value, id, accepted.value)
  }

  ghost predicate Inv(rutas: seq<set<string>>, proxyName: string, ids: seq<CR>, s: State) {
    && Tenants(rutas, proxyName, ids) && s.checked
    && Sized(s) && |s.crs| == |ids|
    && (s.proxy.Some? ==> s.proxy.value.rv == s.version)
    && (forall i :: 0 <= i < |ids| ==> CopyOf(rutas[i], proxyName, ids[i], s.crs[i]))
    && (forall i :: 0 <= i < |ids| ==> WorkerOk(rutas[i], proxyName, ids[i], s, s.workers[i]))
    && (forall c :: 0 <= c < |s.cleaners| ==>
          Stranger(rutas, ids, s.cleaners[c])
          && (s.cleaners[c].held.Some? ==> Faithful(s, s.cleaners[c].held.value)))
    && (forall i :: 0 <= i < |ids| ==> AcceptedOk(rutas[i], ids[i], s.proxy, s.accepted[i]))
  }

  // ---- One accepted write ----

  lemma SlashInjective(a: string, b: string)
    requires Slash(a) == Slash(b)
    ensures a == b
  {
    assert a == Slash(a)[1..] && b == Slash(b)[1..];
  }

  // The writer itself is then in place.
  lemma WriterInPlace(p: Proxy, u: CR)
    ensures InPlace(R.Merge(p, u), u, PrefixOf(u))
    ensures InPlace(R.NewProxy(u), u, PrefixOf(u))
  {
    OwnedAfterWith(p.owners, SharedOwner(u));
    UpsertLookup(if R.Renamed(u) then WithoutRoute(p.routes, u.ann.route) else p.routes, RouteOf(u), PrefixOf(u));
    assert R.NewProxy(u).owners[0].uid == u.uid;
    LookupIs([RouteOf(u)], PrefixOf(u), 0);
  }

  lemma WriterAccepted(s: State, w: Worker, id: CR)
    requires w.Fetched? && Accepts(s, w) && id.uid == w.u.uid && id.name == w.u.name
    ensures InPlace(Merged(s, w), id, PrefixOf(w.u))
  {
    WriterInPlace(if w.seen.Some? then w.seen.value else R.NewProxy(w.u), w.u);
  }

  // Everyone else stays in place: a merge takes out and puts in only prefixes of
  // the writer's own.
  lemma MergeKeepsInPlace(p: Proxy, u: CR, id: CR, prefix: string)
    requires InPlace(p, id, prefix)
    requires prefix != PrefixOf(u) && (R.Renamed(u) ==> prefix != u.ann.route)
    ensures InPlace(R.Merge(p, u), id, prefix)
  {
    AddingKeepsOwned(p.owners, SharedOwner(u), id.uid);
    if R.Renamed(u) {
      WithoutRouteLookup(p.routes, u.ann.route, prefix);
    }
    UpsertLookup(if R.Renamed(u) then WithoutRoute(p.routes, u.ann.route) else p.routes, RouteOf(u), prefix);
  }

  lemma MergeKeepsTenant(rutas: set<string>, proxyName: string, id: CR, u: CR, others: set<string>,
                         p: Proxy, other: CR, prefix: string)
    requires CopyOf(rutas, proxyName, id, u) && proxyName != "" && Registers(u) && rutas !! others
    requires InPlace(p, other, prefix) && exists r :: r in others && prefix == Slash(r)
    ensures InPlace(R.Merge(p, u), other, prefix)
  {
    var r :| r in others && prefix == Slash(r);
    if prefix == PrefixOf(u) {
      SlashInjective(r, u.spec.ruta);
    }
    if R.Renamed(u) && prefix == u.ann.route {
      var q :| q in rutas && u.ann.route == Slash(q);
      SlashInjective(r, q);
    }
    hide InPlace, R.Merge, Slash, Registers;
    MergeKeepsInPlace(p, u, other, prefix);
  }

  // So does a cleaner's update of the proxy as it is.
  lemma StripKeepsInPlace(p: Proxy, uid: string, route: string, id: CR, prefix: string)
    requires InPlace(p, id, prefix) && id.uid != uid && prefix != route
    ensures InPlace(R.Strip(p, uid, route), id, prefix)
  {
    WithoutOwnerMembers(p.owners, uid);
    var i :| 0 <= i < |p.owners| && p.owners[i].uid == id.uid;
    var kept := WithoutOwner(p.owners, uid);
    assert p.owners[i] in kept;
    var k :| 0 <= k < |kept| && kept[k] == p.owners[i];
    WithoutRouteLookup(p.routes, route, prefix);
  }

  // ---- Every step keeps the invariant ----

  lemma CopyMeans(rutas: set<string>, proxyName: string, id: CR, u: CR)
    requires CopyOf(rutas, proxyName, id, u)
    ensures u.uid == id.uid && u.name == id.name && (u.spec.ruta == "" || u.spec.ruta in rutas)
  {
  }

  // A newer proxy does not spoil an old copy.
  lemma StillFaithful(s: State, s': State, seen: Option<Proxy>)
    requires Faithful(s, seen) && s.version <= s'.version
    requires s.proxy.Some? ==> s.proxy.value.rv == s.version
    requires s'.proxy.Some? ==> s'.proxy == s.proxy || s'.proxy.value.rv == s'.version > s.version
    ensures Faithful(s', seen)
  {
  }

  lemma WorkerStaysOk(rutas: set<string>, proxyName: string, id: CR, s: State, s': State, w: Worker)
    requires WorkerOk(rutas, proxyName, id, s, w) && s.version <= s'.version
    requires s.proxy.Some? ==> s.proxy.value.rv == s.version
    requires s'.proxy.Some? ==> s'.proxy == s.proxy || s'.proxy.value.rv == s'.version > s.version
    ensures WorkerOk(rutas, proxyName, id, s', w)
  {
    hide CopyOf, Registers;
  }

  // The proxy is replaced by a newer one, or deleted, or left alone.
  ghost predicate Renews(s: State, s': State) {
    && s'.checked == s.checked && s'.crs == s.crs && s.version <= s'.version
    && (s'.proxy == s.proxy || s'.proxy.None? || s'.proxy.value.rv == s'.version > s.version)
    && (s'.proxy == s.proxy ==> s'.version == s.version)
  }

  lemma RenewalKeepsInv(rutas: seq<set<string>>, proxyName: string, ids: seq<CR>, s: State, s': State)
    requires Inv(rutas, proxyName, ids, s) && Renews(s, s') && Sized(s')
    requires forall i :: 0 <= i < |ids| ==>
               s'.workers[i] == s.workers[i] || WorkerOk(rutas[i], proxyName, ids[i], s', s'.workers[i])
    requires |s'.cleaners| == |s.cleaners|
    requires forall c :: 0 <= c < |s.cleaners| ==>
               s'.cleaners[c] == s.cleaners[c] || s'.cleaners[c] == s.cleaners[c].(held := None)
    requires forall i :: 0 <= i < |ids| ==> AcceptedOk(rutas[i], ids[i], s'.proxy, s'.accepted[i])
    ensures Inv(rutas, proxyName, ids, s')
  {
    assert |rutas| == |ids|;
    hide CopyOf, AcceptedOk, Tenants;
    forall i | 0 <= i < |ids| ensures WorkerOk(rutas[i], proxyName, ids[i], s', s'.workers[i]) {
      if s'.workers[i] == s.workers[i] {
        WorkerStaysOk(rutas[i], proxyName, ids[i], s, s', s.workers[i]);
      }
    }
    hide WorkerOk;
    forall c | 0 <= c < |s.cleaners|
      ensures Stranger(rutas, ids, s'.cleaners[c])
              && (s'.cleaners[c].held.Some? ==> Faithful(s', s'.cleaners[c].held.value))
    {
      assert Stranger(rutas, ids, s.cleaners[c]);
      if s'.cleaners[c].held.Some? {
        StillFaithful(s, s', s.cleaners[c].held.value);
      }
    }
  }

  lemma WriteKeepsAccepted(rutas: seq<set<string>>, proxyName: string, ids: seq<CR>, s: State, i: nat, j: nat)
    requires Inv(rutas, proxyName, ids, s) && Enabled(rutas, s, Write(i)) && Accepts(s, s.workers[i])
    requires j < |ids|
    ensures var s' := Act(rutas, s, Write(i)); AcceptedOk(rutas[j], ids[j], s'.proxy, s'.accepted[j])
  {
    var w := s.workers[i];
    assert WorkerOk(rutas[i], proxyName, ids[i], s, w);
    CopyMeans(rutas[i], proxyName, ids[i], w.u);
    hide InPlace, R.Merge, R.NewProxy;
    if j == i {
      WriterAccepted(s, w, ids[i]);
      assert PrefixOf(w.u) == Slash(w.u.spec.ruta);
    } else {
      assert AcceptedOk(rutas[j], ids[j], s.proxy, s.accepted[j]);
      if s.accepted[j].Some? {
        assert rutas[i] !! rutas[j];
        MergeKeepsTenant(rutas[i], proxyName, ids[i], w.u, rutas[j], s.proxy.value, ids[j], s.accepted[j].value);
        BumpKeepsInPlace(s.checked, s.proxy.value, R.Merge(s.proxy.value, w.u), ids[j], s.accepted[j].value);
      }
    }
  }

  lemma BumpKeepsInPlace(checked: bool, p: Proxy, q: Proxy, id: CR, prefix: string)
    requires InPlace(q, id, prefix)
    ensures InPlace(R.Bumped(checked, p, q), id, prefix)
  {
  }

  lemma WriteKeepsInv(rutas: seq<set<string>>, proxyName: string, ids: seq<CR>, s: State, i: nat)
    requires Inv(rutas, proxyName, ids, s) && Enabled(rutas, s, Write(i))
    ensures Inv(rutas, proxyName, ids, Act(rutas, s, Write(i)))
  {
    var s' := Act(rutas, s, Write(i));
    var w := s.workers[i];
    assert WorkerOk(rutas[i], proxyName, ids[i], s, w);
    assert WorkerOk(rutas[i], proxyName, ids[i], s', s'.workers[i]);
    assert Renews(s, s');
    if Accepts(s, w) {
      hide WorkerOk, AcceptedOk, Inv;
      forall j | 0 <= j < |ids| ensures AcceptedOk(rutas[j], ids[j], s'.proxy, s'.accepted[j]) {
        WriteKeepsAccepted(rutas, proxyName, ids, s, i, j);
      }
    }
    hide WorkerOk, AcceptedOk, Inv, Renews, R.Merge, R.NewProxy;
    RenewalKeepsInv(rutas, proxyName, ids, s, s');
  }

  // A step loses the registrations exactly when it is a cleaner's delete.
  predicate Deletes(s: State, e: Step) {
    e.Leave? && e.c < |s.cleaners| && FindsItEmpty(s.cleaners[e.c]) && s.proxy.Some?
  }

  lemma LeaveKeepsAccepted(rutas: seq<set<string>>, proxyName: string, ids: seq<CR>, s: State, c: nat, j: nat)
    requires Inv(rutas, proxyName, ids, s) && Enabled(rutas, s, Leave(c)) && j < |ids|
    ensures var s' := Act(rutas, s, Leave(c)); AcceptedOk(rutas[j], ids[j], s'.proxy, s'.accepted[j])
  {
    var cl := s.cleaners[c];
    assert Stranger(rutas, ids, cl) && AcceptedOk(rutas[j], ids[j], s.proxy, s.accepted[j]);
    hide InPlace, R.Strip;
    if s.accepted[j].Some? && cl.held.value.Some? && !FindsItEmpty(cl) && Updates(s, cl.held.value.value) {
      assert cl.held.value == s.proxy;
      StripKeepsInPlace(s.proxy.value, cl.uid, cl.route, ids[j], s.accepted[j].value);
      BumpKeepsInPlace(s.checked, s.proxy.value, Stripped(cl), ids[j], s.accepted[j].value);
    }
  }

  lemma LeaveKeepsInv(rutas: seq<set<string>>, proxyName: string, ids: seq<CR>, s: State, c: nat)
    requires Inv(rutas, proxyName, ids, s) && Enabled(rutas, s, Leave(c))
    ensures Inv(rutas, proxyName, ids, Act(rutas, s, Leave(c)))
  {
    var s' := Act(rutas, s, Leave(c));
    assert Faithful(s, s.cleaners[c].held.value);
    assert Renews(s, s');
    hide WorkerOk, AcceptedOk, Inv;
    forall j | 0 <= j < |ids| ensures AcceptedOk(rutas[j], ids[j], s'.proxy, s'.accepted[j]) {
      LeaveKeepsAccepted(rutas, proxyName, ids, s, c, j);
    }
    hide Renews, R.Strip;
    RenewalKeepsInv(rutas, proxyName, ids, s, s');
  }

  lemma AttemptKeepsInv(rutas: seq<set<string>>, proxyName: string, ids: seq<CR>, s: State, e: Step)
    requires Inv(rutas, proxyName, ids, s) && Enabled(rutas, s, e) && (e.Load? || e.Skip? || e.Fetch?)
    ensures Inv(rutas, proxyName, ids, Act(rutas, s, e))
  {
    var s' := Act(rutas, s, e);
    assert WorkerOk(rutas[e.i], proxyName, ids[e.i], s, s.workers[e.i]);
    assert CopyOf(rutas[e.i], proxyName, ids[e.i], s.crs[e.i]);
    assert WorkerOk(rutas[e.i], proxyName, ids[e.i], s', s'.workers[e.i]);
    hide WorkerOk, AcceptedOk, CopyOf, Tenants, Stranger;
    RenewalKeepsInv(rutas, proxyName, ids, s, s');
  }

  lemma LookKeepsInv(rutas: seq<set<string>>, proxyName: string, ids: seq<CR>, s: State, c: nat)
    requires Inv(rutas, proxyName, ids, s) && Enabled(rutas, s, Look(c))
    ensures Inv(rutas, proxyName, ids, Act(rutas, s, Look(c)))
  {
    var s' := Act(rutas, s, Look(c));
    assert Stranger(rutas, ids, s.cleaners[c]);
    assert Stranger(rutas, ids, s'.cleaners[c]) && Faithful(s', s'.cleaners[c].held.value);
    SameWorkersOk(rutas, proxyName, ids, s, s');
    hide AcceptedOk, CopyOf, Tenants, Stranger, WorkerOk;
  }

  lemma SameWorkersOk(rutas: seq<set<string>>, proxyName: string, ids: seq<CR>, s: State, s': State)
    requires Inv(rutas, proxyName, ids, s) && s'.proxy == s.proxy && s'.version == s.version && Sized(s')
    requires |s'.crs| == |s.crs|
    requires forall i :: 0 <= i < |ids| ==> s'.workers[i] == s.workers[i] || s'.workers[i].Idle?
    ensures forall i :: 0 <= i < |ids| ==> WorkerOk(rutas[i], proxyName, ids[i], s', s'.workers[i])
  {
    forall i | 0 <= i < |ids| ensures WorkerOk(rutas[i], proxyName, ids[i], s', s'.workers[i]) {
      assert WorkerOk(rutas[i], proxyName, ids[i], s, s.workers[i]);
    }
  }

  lemma RecordKeepsInv(rutas: seq<set<string>>, proxyName: string, ids: seq<CR>, s: State, s': State, i: nat, u: CR)
    requires Inv(rutas, proxyName, ids, s) && i < |ids| && CopyOf(rutas[i], proxyName, ids[i], u)
    requires s' == s.(crs := s.crs[i := u], workers := s'.workers)
    requires s'.workers == s.workers || s'.workers == s.workers[i := Idle]
    ensures Inv(rutas, proxyName, ids, s')
  {
    SameWorkersOk(rutas, proxyName, ids, s, s');
    hide AcceptedOk, CopyOf, Tenants, Stranger, WorkerOk;
    assert forall c :: 0 <= c < |s.cleaners| && s.cleaners[c].held.Some? ==> Faithful(s', s.cleaners[c].held.value);
  }

  lemma RecordStepKeepsInv(rutas: seq<set<string>>, proxyName: string, ids: seq<CR>, s: State, e: Step)
    requires Inv(rutas, proxyName, ids, s) && Enabled(rutas, s, e) && (e.Annotate? || e.Edit?)
    ensures Inv(rutas, proxyName, ids, Act(rutas, s, e))
  {
    var s' := Act(rutas, s, e);
    assert WorkerOk(rutas[e.i], proxyName, ids[e.i], s, s.workers[e.i]);
    assert CopyOf(rutas[e.i], proxyName, ids[e.i], s.crs[e.i]);
    if e.Annotate? && e.ok {
      IndexedCopy(rutas[e.i], proxyName, ids[e.i], s.workers[e.i].u, s.workers[e.i].existed);
    }
    var u := s'.crs[e.i];
    assert CopyOf(rutas[e.i], proxyName, ids[e.i], u);
    assert s.crs[e.i := s.crs[e.i]] == s.crs;
    hide Inv, CopyOf, WorkerOk;
    RecordKeepsInv(rutas, proxyName, ids, s, s', e.i, u);
  }

  lemma IndexedCopy(rutas: set<string>, proxyName: string, id: CR, u: CR, existed: bool)
    requires CopyOf(rutas, proxyName, id, u) && Registers(u)
    ensures CopyOf(rutas, proxyName, id, R.Indexed(u, existed))
  {
    assert u.spec.ruta in rutas && R.Indexed(u, existed).ann.route == Slash(u.spec.ruta);
  }

  lemma StepKeepsInv(rutas: seq<set<string>>, proxyName: string, ids: seq<CR>, s: State, e: Step)
    requires Inv(rutas, proxyName, ids, s) && Enabled(rutas, s, e)
    ensures Inv(rutas, proxyName, ids, Act(rutas, s, e))
  {
    hide Inv, Act, Enabled;
    match e {
      case Write(i) => WriteKeepsInv(rutas, proxyName, ids, s, i);
      case Leave(c) => LeaveKeepsInv(rutas, proxyName, ids, s, c);
      case Look(c) => LookKeepsInv(rutas, proxyName, ids, s, c);
      case Annotate(_, _) => RecordStepKeepsInv(rutas, proxyName, ids, s, e);
      case Edit(_, _, _) => RecordStepKeepsInv(rutas, proxyName, ids, s, e);
      case _ => AttemptKeepsInv(rutas, proxyName, ids, s, e);
    }
  }

  lemma {:induction false} RunKeepsInv(rutas: seq<set<string>>, proxyName: string, ids: seq<CR>, s: State,
                                       steps: seq<Step>)
    requires Inv(rutas, proxyName, ids, s) && Runs(rutas, s, steps)
    ensures Inv(rutas, proxyName, ids, After(rutas, s, steps))
    decreases |steps|
  {
    hide Inv, Enabled, Act;
    if |steps| > 0 {
      StepKeepsInv(rutas, proxyName, ids, s, steps[0]);
      RunKeepsInv(rutas, proxyName, ids, Act(rutas, s, steps[0]), steps[1..]);
    }
  }

  // Before anyone has written: idle workers and any proxy, or none.
  ghost predicate Init(rutas: seq<set<string>>, proxyName: string, ids: seq<CR>, s: State) {
    && Tenants(rutas, proxyName, ids) && s.checked && Sized(s) && s.crs == ids
    && (s.proxy.Some? ==> s.proxy.value.rv == s.version)
    && (forall i :: 0 <= i < |ids| ==>
          CopyOf(rutas[i], proxyName, ids[i], ids[i]) && s.workers[i] == Idle && s.accepted[i] == None)
    && (forall c :: 0 <= c < |s.cleaners| ==> Stranger(rutas, ids, s.cleaners[c]) && s.cleaners[c].held == None)
  }

  // ---- When a merge is lost ----

  // In every run, every resource whose write was accepted since the proxy was
  // last deleted is an owner, and the prefix of its last accepted write leads to
  // its service.
  lemma EveryMergeSurvives(rutas: seq<set<string>>, proxyName: string, ids: seq<CR>, s: State,
                           steps: seq<Step>, i: nat)
    requires Init(rutas, proxyName, ids, s) && Runs(rutas, s, steps) && i < |ids|
    ensures var t := After(rutas, s, steps);
            && |t.accepted| == |ids|
            && (t.accepted[i].Some? ==> t.proxy.Some? && InPlace(t.proxy.value, ids[i], t.accepted[i].value))
  {
    RunKeepsInv(rutas, proxyName, ids, s, steps);
    var t := After(rutas, s, steps);
    assert AcceptedOk(rutas[i], ids[i], t.proxy, t.accepted[i]);
  }

  predicate SomeDelete(rutas: seq<set<string>>, s: State, steps: seq<Step>)
    requires Runs(rutas, s, steps)
    decreases |steps|
  {
    |steps| > 0 && (Deletes(s, steps[0]) || SomeDelete(rutas, Act(rutas, s, steps[0]), steps[1..]))
  }

  // And what was accepted last changes by the resource's own writes only, as
  // long as nobody deletes the proxy.
  lemma {:induction false} OnlyOwnWritesChange(rutas: seq<set<string>>, s: State, steps: seq<Step>, i: nat)
    requires Sized(s) && Runs(rutas, s, steps) && i < |s.crs|
    requires Write(i) !in steps
    requires s.accepted[i].Some? ==> s.proxy.Some?
    ensures var t := After(rutas, s, steps);
            && Sized(t) && |t.crs| == |s.crs|
            && (!SomeDelete(rutas, s, steps) ==> t.accepted[i] == s.accepted[i])
    decreases |steps|
  {
    if |steps| > 0 {
      assert steps[0] in steps;
      OneStepKeepsAccepted(rutas, s, steps[0], i);
      hide Act, Enabled;
      OnlyOwnWritesChange(rutas, Act(rutas, s, steps[0]), steps[1..], i);
    }
  }

  lemma OneStepKeepsAccepted(rutas: seq<set<string>>, s: State, e: Step, i: nat)
    requires Sized(s) && Enabled(rutas, s, e) && i < |s.crs| && e != Write(i)
    requires s.accepted[i].Some? ==> s.proxy.Some?
    ensures var t := Act(rutas, s, e);
            && Sized(t) && |t.crs| == |s.crs| && (t.accepted[i].Some? ==> t.proxy.Some?)
            && (!Deletes(s, e) ==> t.accepted[i] == s.accepted[i])
  {
    hide R.Merge, R.Strip, R.NewProxy;
  }

  // A step takes a tenant's accepted registration away exactly when it is the
  // delete of a cleaner whose copy of the proxy shows nobody else: a copy read
  // before the tenant's write, and older than the proxy that gets deleted.
  lemma LostIffDeleted(rutas: seq<set<string>>, proxyName: string, ids: seq<CR>, s: State, e: Step, i: nat)
    requires Inv(rutas, proxyName, ids, s) && Enabled(rutas, s, e) && i < |ids| && s.accepted[i].Some?
    ensures var t := Act(rutas, s, e);
            && (t.proxy.Some? && OwnedBy(t.proxy.value.owners, ids[i].uid) <==> !Deletes(s, e))
            && (e != Write(i) ==>
                  (t.proxy.Some? && InPlace(t.proxy.value, ids[i], s.accepted[i].value) <==> !Deletes(s, e)))
    ensures Deletes(s, e) ==>
              var seen := s.cleaners[e.c].held.value.value;
              !OwnedBy(seen.owners, ids[i].uid) && seen.rv < s.proxy.value.rv
  {
    assert AcceptedOk(rutas[i], ids[i], s.proxy, s.accepted[i]);
    StepKeepsInv(rutas, proxyName, ids, s, e);
    var t := Act(rutas, s, e);
    assert AcceptedOk(rutas[i], ids[i], t.proxy, t.accepted[i]);
    if Deletes(s, e) {
      var cl := s.cleaners[e.c];
      var seen := cl.held.value.value;
      assert Stranger(rutas, ids, cl) && Faithful(s, cl.held.value);
      NothingElse(seen, cl.uid, cl.route, ids[i].uid);
    } else {
      hide Inv, Enabled, InPlace, AcceptedOk;
      StillAccepted(rutas, s, e, i);
    }
  }

  lemma StillAccepted(rutas: seq<set<string>>, s: State, e: Step, i: nat)
    requires Enabled(rutas, s, e) && i < |s.accepted| && s.accepted[i].Some? && s.proxy.Some? && !Deletes(s, e)
    ensures var t := Act(rutas, s, e);
            i < |t.accepted| && t.accepted[i].Some? && (e != Write(i) ==> t.accepted[i] == s.accepted[i])
  {
    hide R.Merge, R.Strip, R.NewProxy;
  }

  lemma NothingElse(p: Proxy, uid: string, route: string, other: string)
    requires R.Strip(p, uid, route).owners == [] && other != uid
    ensures !OwnedBy(p.owners, other)
  {
    WithoutOwnerMembers(p.owners, uid);
    forall i | 0 <= i < |p.owners| ensures p.owners[i].uid == uid {
      assert p.owners[i] in p.owners && p.owners[i] !in WithoutOwner(p.owners, uid);
    }
  }

  // A leaving resource takes its own entry out, unless the proxy has changed since
  // it was read: its update is then refused, and nobody tries again.
  lemma LeaverStaysIff(rutas: seq<set<string>>, proxyName: string, ids: seq<CR>, s: State, c: nat)
    requires Inv(rutas, proxyName, ids, s) && Enabled(rutas, s, Leave(c))
    requires s.proxy.Some? && OwnedBy(s.proxy.value.owners, s.cleaners[c].uid)
    ensures var t := Act(rutas, s, Leave(c));
            t.proxy.Some? && OwnedBy(t.proxy.value.owners, s.cleaners[c].uid) <==>
              s.cleaners[c].held.value != s.proxy && !FindsItEmpty(s.cleaners[c])
  {
    var cl := s.cleaners[c];
    assert Faithful(s, cl.held.value);
    if cl.held.value.Some? {
      NotOwnedWithout(cl.held.value.value.owners, cl.uid);
    }
    hide Inv, WithoutRoute;
  }

  lemma NotOwnedWithout(owners: seq<Owner>, uid: string)
    ensures !OwnedBy(WithoutOwner(owners, uid), uid)
  {
    WithoutOwnerMembers(owners, uid);
  }

  // It does happen: the proxy's only tenant leaves while a newcomer joins.
  function LeaverAndNewcomer(a: CR, leaver: Owner, route: Route): State {
    State(true, [a], [Idle], [Cleaner(leaver.uid, route.prefix, None)],
          Some(Proxy([leaver], [route], a.spec.host, 0)), 0, [None])
  }

  lemma OnlyTenantStripped(leaver: Owner, route: Route, fqdn: string)
    requires route.prefix != ""
    ensures R.Strip(Proxy([leaver], [route], fqdn, 0), leaver.uid, route.prefix) == Proxy([], [], fqdn, 0)
  {
    assert WithoutOwner([leaver], leaver.uid) == WithoutOwner([leaver][..0], leaver.uid);
    assert WithoutRoute([route], route.prefix) == WithoutRoute([route][..0], route.prefix);
  }

  lemma NewcomerLost(a: CR, leaver: Owner, route: Route)
    requires Registers(a) && leaver.uid != a.uid && route.prefix != ""
    ensures var rutas, s := [{a.spec.ruta}], LeaverAndNewcomer(a, leaver, route);
            && Runs(rutas, s, [Look(0)] + ([Load(0), Fetch(0), Write(0)] + [Leave(0)]))
            && After(rutas, s, [Look(0)] + ([Load(0), Fetch(0), Write(0)] + [Leave(0)])).proxy == None
    ensures var rutas, s := [{a.spec.ruta}], LeaverAndNewcomer(a, leaver, route);
            && Runs(rutas, s, [Look(0)] + [Load(0), Fetch(0), Write(0)])
            && After(rutas, s, [Look(0)] + [Load(0), Fetch(0), Write(0)]).accepted == [Some(PrefixOf(a))]
  {
    var rutas, s := [{a.spec.ruta}], LeaverAndNewcomer(a, leaver, route);
    var joining, leaving := [Load(0), Fetch(0), Write(0)], [Leave(0)];
    var s1 := Act(rutas, s, Look(0));
    NewcomerJoins(rutas, s1, a);
    var s4 := After(rutas, s1, joining);
    OnlyTenantStripped(leaver, route, a.spec.host);
    assert FindsItEmpty(s4.cleaners[0]);
    hide R.Merge, R.Strip, Runs, After, FindsItEmpty;
    LeaverDeletes(rutas, s4);
    RunsOn(rutas, s1, joining, leaving);
    RunsNext(rutas, s, Look(0), joining);
    RunsNext(rutas, s, Look(0), joining + leaving);
  }

  lemma LeaverDeletes(rutas: seq<set<string>>, s: State)
    requires Enabled(rutas, s, Leave(0)) && FindsItEmpty(s.cleaners[0])
    ensures Runs(rutas, s, [Leave(0)]) && After(rutas, s, [Leave(0)]).proxy == None
  {
    var t := Act(rutas, s, Leave(0));
    assert Runs(rutas, t, []) && After(rutas, t, []) == t && [Leave(0)][1..] == [];
    hide R.Strip;
  }

  lemma NewcomerJoins(rutas: seq<set<string>>, s: State, a: CR)
    requires |rutas| == 1 && s.crs == [a] && s.workers == [Idle] && |s.accepted| == 1 && Registers(a)
    requires s.proxy.Some? && s.proxy.value.rv == s.version
    ensures Runs(rutas, s, [Load(0), Fetch(0), Write(0)])
    ensures var t := After(rutas, s, [Load(0), Fetch(0), Write(0)]);
            t.accepted == [Some(PrefixOf(a))] && t.cleaners == s.cleaners && t.proxy.Some? && Sized(t) && |t.crs| == 1
  {
    hide R.Merge, Registers;
    var s1 := Act(rutas, s, Load(0));
    var s2 := Act(rutas, s1, Fetch(0));
    var s3 := Act(rutas, s2, Write(0));
    assert Runs(rutas, s3, []) && After(rutas, s3, []) == s3;
    hide Act, Enabled;
    RunsNext(rutas, s2, Write(0), []);
    assert [Write(0)] + [] == [Write(0)];
    RunsNext(rutas, s1, Fetch(0), [Write(0)]);
    RunsNext(rutas, s, Load(0), [Fetch(0)] + [Write(0)]);
    assert [Load(0)] + ([Fetch(0)] + [Write(0)]) == [Load(0), Fetch(0), Write(0)];
  }

  lemma RunsNext(rutas: seq<set<string>>, s: State, e: Step, rest: seq<Step>)
    requires Enabled(rutas, s, e) && Runs(rutas, Act(rutas, s, e), rest)
    ensures Runs(rutas, s, [e] + rest) && After(rutas, s, [e] + rest) == After(rutas, Act(rutas, s, e), rest)
  {
    hide Act, Enabled;
    assert ([e] + rest)[1..] == rest;
  }

  lemma {:induction false} RunsOn(rutas: seq<set<string>>, s: State, a: seq<Step>, b: seq<Step>)
    requires Runs(rutas, s, a) && Runs(rutas, After(rutas, s, a), b)
    ensures Runs(rutas, s, a + b) && After(rutas, s, a + b) == After(rutas, After(rutas, s, a), b)
    decreases |a|
  {
    hide Act, Enabled;
    if a == [] {
      assert a + b == b;
    } else {
      RunsOn(rutas, Act(rutas, s, a[0]), a[1..], b);
      assert (a + b)[1..] == a[1..] + b;
    }
  }

  // A write is refused exactly when the proxy is no longer as the worker read it.
  lemma RefusalMeansProgress(rutas: seq<set<string>>, proxyName: string, ids: seq<CR>, s: State, i: nat)
    requires Inv(rutas, proxyName, ids, s) && Enabled(rutas, s, Write(i))
    ensures Accepts(s, s.workers[i]) <==> s.workers[i].seen == s.proxy
  {
    assert WorkerOk(rutas[i], proxyName, ids[i], s, s.workers[i]);
  }

  // A requeued worker that is left alone for one attempt can make it exactly if
  // its resource is valid and has a route, and then succeeds with what the
  // resource asks for now.  Otherwise it never gets to the proxy.
  lemma UndisturbedAttemptSucceeds(rutas: seq<set<string>>, proxyName: string, ids: seq<CR>, s: State, i: nat)
    requires Inv(rutas, proxyName, ids, s) && i < |ids| && s.workers[i].Idle?
    ensures Runs(rutas, s, [Load(i), Fetch(i), Write(i)]) <==> Registers(s.crs[i])
    ensures Registers(s.crs[i]) ==>
              var t := After(rutas, s, [Load(i), Fetch(i), Write(i)]);
              i < |t.accepted| && t.accepted[i] == Some(PrefixOf(s.crs[i]))
    ensures !Registers(s.crs[i]) ==>
              Runs(rutas, s, [Load(i), Skip(i)]) && After(rutas, s, [Load(i), Skip(i)]) == s
  {
    var s1 := Act(rutas, s, Load(i));
    assert s1.workers[i] == Loaded(s.crs[i]);
    assert [Load(i), Fetch(i), Write(i)][1..] == [Fetch(i), Write(i)];
    hide R.Merge, R.NewProxy, Inv;
    if Registers(s.crs[i]) {
      var s2 := Act(rutas, s1, Fetch(i));
      OneAttempt(rutas, s1, s2, i);
    } else {
      assert [Load(i), Skip(i)][1..] == [Skip(i)] && [Skip(i)][1..] == [];
      assert s.workers[i := Loaded(s.crs[i])][i := Idle] == s.workers;
      assert Act(rutas, s1, Skip(i)) == s;
      assert Runs(rutas, s, []) && Runs(rutas, s1, [Skip(i)]) && After(rutas, s1, [Skip(i)]) == After(rutas, s, []);
    }
  }

  lemma OneAttempt(rutas: seq<set<string>>, s1: State, s2: State, i: nat)
    requires Enabled(rutas, s1, Fetch(i)) && s2 == Act(rutas, s1, Fetch(i))
    ensures Runs(rutas, s1, [Fetch(i), Write(i)])
    ensures var t := After(rutas, s1, [Fetch(i), Write(i)]);
            i < |t.accepted| && t.accepted[i] == Some(PrefixOf(s1.workers[i].u))
  {
    hide R.Merge, R.NewProxy;
    assert Accepts(s2, s2.workers[i]);
    var s3 := Act(rutas, s2, Write(i));
    assert [Fetch(i), Write(i)][1..] == [Write(i)] && [Write(i)][1..] == [];
    assert Runs(rutas, s3, []) && Runs(rutas, s2, [Write(i)]) && After(rutas, s2, [Write(i)]) == s3;
  }

  // ---- Without version checks ----

  // Of two overlapping writes the second decides: the first writer is still an
  // owner exactly if the second had read it as one.
  lemma LostWithoutVersions(rutas: seq<set<string>>, s: State, i: nat, j: nat, s1: State)
    requires !s.checked && Enabled(rutas, s, Write(i)) && Enabled(rutas, s, Write(j)) && i != j
    requires s.proxy.Some? && s.workers[i].seen.Some? && s.workers[j].seen.Some?
    requires s.workers[i].u.uid != s.workers[j].u.uid
    requires s1 == Act(rutas, s, Write(i))
    ensures OwnedBy(s1.proxy.value.owners, s.workers[i].u.uid) && Enabled(rutas, s1, Write(j))
    ensures OwnedBy(Act(rutas, s1, Write(j)).proxy.value.owners, s.workers[i].u.uid) <==>
              OwnedBy(s.workers[j].seen.value.owners, s.workers[i].u.uid)
  {
    WriterInPlace(s.workers[i].seen.value, s.workers[i].u);
    OthersOwned(s.workers[j].seen.value.owners, SharedOwner(s.workers[j].u), s.workers[i].u.uid);
    hide Upsert, Lookup;
  }

  lemma OthersOwned(owners: seq<Owner>, o: Owner, uid: string)
    requires o.uid != uid
    ensures OwnedBy(WithOwner(owners, o), uid) <==> OwnedBy(owners, uid)
  {
    if OwnedBy(owners, uid) {
      AddingKeepsOwned(owners, o, uid);
    }
  }

  // It happens when two resources of one host are both loaded and read the proxy
  // before either writes it.
  function Pair(a: CR, b: CR, v: Worker, w: Worker): State {
    State(false, [a, b], [v, w], [], Some(Vacant(a)), 0, [None, None])
  }

  function Vacant(a: CR): Proxy {
    Proxy([], [], a.spec.host, 0)
  }

  function Overlapping(): seq<Step> {
    [Load(0)] + ([Load(1)] + ([Fetch(0)] + ([Fetch(1)] + ([Write(0)] + [Write(1)]))))
  }

  lemma BothLoad(rutas: seq<set<string>>, a: CR, b: CR)
    requires |rutas| == 2
    ensures var s, t := Pair(a, b, Idle, Idle), Pair(a, b, Loaded(a), Idle);
            Enabled(rutas, s, Load(0)) && Act(rutas, s, Load(0)) == t
    ensures var s, t := Pair(a, b, Loaded(a), Idle), Pair(a, b, Loaded(a), Loaded(b));
            Enabled(rutas, s, Load(1)) && Act(rutas, s, Load(1)) == t
  {
  }

  lemma BothFetch(rutas: seq<set<string>>, a: CR, b: CR)
    requires |rutas| == 2 && Registers(a) && Registers(b)
    ensures var s, t := Pair(a, b, Loaded(a), Loaded(b)), Pair(a, b, Fetched(a, Some(Vacant(a))), Loaded(b));
            Enabled(rutas, s, Fetch(0)) && Act(rutas, s, Fetch(0)) == t
    ensures var s := Pair(a, b, Fetched(a, Some(Vacant(a))), Loaded(b));
            && Enabled(rutas, s, Fetch(1))
            && Act(rutas, s, Fetch(1)) == Pair(a, b, Fetched(a, Some(Vacant(a))), Fetched(b, Some(Vacant(a))))
  {
    hide Registers, Vacant;
  }

  lemma BothWrite(rutas: seq<set<string>>, a: CR, b: CR, s: State, s1: State)
    requires |rutas| == 2 && a.uid != b.uid
    requires s == Pair(a, b, Fetched(a, Some(Vacant(a))), Fetched(b, Some(Vacant(a))))
    requires Enabled(rutas, s, Write(0)) && s1 == Act(rutas, s, Write(0))
    ensures Enabled(rutas, s1, Write(1))
    ensures var t := Act(rutas, s1, Write(1));
            && t.accepted == [Some(PrefixOf(a)), Some(PrefixOf(b))]
            && t.proxy.Some? && !OwnedBy(t.proxy.value.owners, a.uid)
  {
    assert !OwnedBy(Vacant(a).owners, a.uid);
    LostWithoutVersions(rutas, s, 0, 1, s1);
    hide R.Merge, R.NewProxy, PrefixOf, OwnedBy, Vacant;
  }

  lemma FirstWriterLost(a: CR, b: CR)
    requires a.uid != b.uid && Registers(a) && Registers(b)
    ensures var rutas, s := [{a.spec.ruta}, {b.spec.ruta}], Pair(a, b, Idle, Idle);
            && Runs(rutas, s, Overlapping())
            && var t := After(rutas, s, Overlapping());
               && t.accepted == [Some(PrefixOf(a)), Some(PrefixOf(b))]
               && t.proxy.Some? && !OwnedBy(t.proxy.value.owners, a.uid)
  {
    var rutas := [{a.spec.ruta}, {b.spec.ruta}];
    BothLoad(rutas, a, b);
    BothFetch(rutas, a, b);
    var s4 := Pair(a, b, Fetched(a, Some(Vacant(a))), Fetched(b, Some(Vacant(a))));
    assert Enabled(rutas, s4, Write(0));
    var s5 := Act(rutas, s4, Write(0));
    hide Act, Enabled, OwnedBy, Vacant, Registers, Pair;
    BothWrite(rutas, a, b, s4, s5);
    var s6 := Act(rutas, s5, Write(1));
    assert Runs(rutas, s6, []) && After(rutas, s6, []) == s6 && [Write(1)] + [] == [Write(1)];
    hide Runs, After;
    RunsNext(rutas, s5, Write(1), []);
    RunsNext(rutas, s4, Write(0), [Write(1)]);
    LastTwo(rutas, a, b, s4);
  }

  lemma LastTwo(rutas: seq<set<string>>, a: CR, b: CR, s4: State)
    requires |rutas| == 2 && Registers(a) && Registers(b)
    requires s4 == Pair(a, b, Fetched(a, Some(Vacant(a))), Fetched(b, Some(Vacant(a))))
    requires Runs(rutas, s4, [Write(0)] + [Write(1)])
    ensures Runs(rutas, Pair(a, b, Idle, Idle), Overlapping())
    ensures After(rutas, Pair(a, b, Idle, Idle), Overlapping()) == After(rutas, s4, [Write(0)] + [Write(1)])
  {
    BothLoad(rutas, a, b);
    BothFetch(rutas, a, b);
    hide Act, Enabled, Vacant, Registers, Pair, Runs, After;
    var rest := [Write(0)] + [Write(1)];
    var s0, s1, s2 := Pair(a, b, Idle, Idle), Pair(a, b, Loaded(a), Idle), Pair(a, b, Loaded(a), Loaded(b));
    var s3 := Pair(a, b, Fetched(a, Some(Vacant(a))), Loaded(b));
    RunsNext(rutas, s3, Fetch(1), rest);
    RunsNext(rutas, s2, Fetch(0), [Fetch(1)] + rest);
    RunsNext(rutas, s1, Load(1), [Fetch(0)] + ([Fetch(1)] + rest));
    RunsNext(rutas, s0, Load(0), [Load(1)] + ([Fetch(0)] + ([Fetch(1)] + rest)));
  }
}
