/** Convergence of the polling operator: over fixed specs, valid or not, two sweeps
    in any list order, from any annotations and any proxies, see off every resource
    that is being deleted and settle every other, if and only if no two of these are
    in each other's way; where two are, the one listed last has the prefix or the
    host until the next sweep. */
module Sweeps {
  import opened Wrappers
  import opened Objects
  import opened ProxyLists
  import R = Reconciler
  import opened DirectWrites
  import opened DesiredState

  // Any resources; one that is being deleted waits for the operator only.
  ghost predicate Population(s: R.Store) {
    && !s.checked
    && (forall k :: k in s.crs ==> KeyOf(s.crs[k]) == k && (s.crs[k].deleting ==> WaitsForUs(s.crs[k])))
    && (forall j, k :: j in s.crs && k in s.crs && j != k ==> s.crs[j].uid != s.crs[k].uid)
  }

  predicate WaitsForUs(u: CR) {
    FINALIZER in u.finalizers && WithoutFinalizer(u.finalizers) == []
  }

  // The same without any that is being deleted.
  ghost predicate Fleet(s: R.Store) {
    Population(s) && forall k :: k in s.crs ==> !s.crs[k].deleting
  }

  // Two specs that do not claim the same prefix of one proxy, or give one proxy
  // two hosts.
  predicate Compatible(u: CR, v: CR) {
    Registers(u) && Registers(v) && Desired(u) == Desired(v) ==>
      && PrefixOf(u) != PrefixOf(v)
      && (u.spec.host != "" && v.spec.host != "" ==> u.spec.host == v.spec.host)
  }

  // All that are to stay are compatible.
  ghost predicate AllCompatible(s: R.Store) {
    forall j, k :: j in s.crs && k in s.crs && j != k ==>
      s.crs[j].deleting || s.crs[k].deleting || Compatible(s.crs[j], s.crs[k])
  }

  // After its first reconcile a resource says so, and if it is valid, its
  // deployment and service are as desired; if it also has a route, it has recorded
  // its proxy and owns it.
  ghost predicate Joined(s: R.Store, k: Key) {
    k in s.crs && Marked(s.crs[k]) && Deployed(s, s.crs[k]) && (Registers(s.crs[k]) ==> Enlisted(s, s.crs[k]))
  }

  predicate Marked(u: CR) {
    if IsValid(u.spec) then Stamped(u) && Reported(u) else MarkedInvalid(u)
  }

  ghost predicate Deployed(s: R.Store, u: CR) {
    IsValid(u.spec) ==>
      && DeploymentKey(u) in s.deployments && DeploymentDesired(s.deployments[DeploymentKey(u)], u)
      && ServiceKey(u) in s.services && ServiceDesired(s.services[ServiceKey(u)], u)
  }

  ghost predicate Enlisted(s: R.Store, u: CR) {
    && u.ann.proxy == ProxyName(u) && u.ann.route == PrefixOf(u)
    && Desired(u) in s.proxies && OwnedBy(s.proxies[Desired(u)].owners, u.uid)
  }

  // Settled for good: with a route, the finalizer is in place, and the proxy sends
  // the resource's prefix to its service, under its host.
  ghost predicate Settled(s: R.Store, k: Key) {
    && Joined(s, k)
    && var u := s.crs[k];
    Registers(u) ==>
      && FINALIZER in u.finalizers
      && Lookup(s.proxies[Desired(u)].routes, PrefixOf(u)) == Some(ServiceName(u.name))
      && (u.spec.host != "" ==> s.proxies[Desired(u)].fqdn == u.spec.host)
  }

  // The items from the n-th on are as stored.
  ghost predicate StillListed(t: R.Store, items: seq<CR>, n: nat) {
    forall i :: n <= i < |items| ==> KeyOf(items[i]) in t.crs && t.crs[KeyOf(items[i])] == items[i]
  }

  // What List returns: every resource once, as stored.
  ghost predicate Lists(s: R.Store, items: seq<CR>) {
    && StillListed(s, items, 0)
    && (forall i, j :: 0 <= i < j < |items| ==> KeyOf(items[i]) != KeyOf(items[j]))
    && (forall k :: k in s.crs ==> exists i :: 0 <= i < |items| && KeyOf(items[i]) == k)
  }

  // ---- One reconcile, seen by the resource itself ----

  // What is marked and deployed is not written again.
  lemma MarkedIff(u: CR)
    ensures Marked(u) <==> Mark(u) == u
    ensures Marked(Mark(u))
  {
    ValidIff(u.spec);
    StampedIff(u);
    ReportedIff(u);
    StampedIff(Mark(u));
    ReportedIff(Mark(u));
    hide Stamped, Reported, IsValid, Multiplicador, Decimal, Replicas;
  }

  // The parts of a reconcile of one that stays: one that registers,
  lemma MemberReconcile(s: R.Store, k: Key)
    requires Population(s) && k in s.crs && !s.crs[k].deleting && Registers(s.crs[k])
    ensures var u := s.crs[k];
            var t := R.Reconcile(s, u).store;
            && Final(s, u).Some?
            && t == R.Store(s.checked, s.crs[k := Final(s, u).value], R.EnsureDeployment(s.deployments, u),
                            R.EnsureService(s.services, u), R.EnsureProxy(s.checked, s.proxies, u))
            && SameMember(u, Final(s, u).value)
            && Final(s, u).value == R.Indexed(R.Validated(u).(status := ReadyStatus(u)), Desired(u) in s.proxies)
  {
    ReconcileIsDirect(s, s.crs[k]);
  }

  // and one that does not, which touches no proxy.
  function Mark(u: CR): CR {
    if Multiplicador(u.spec) <= 0 then R.Invalidated(u) else R.Validated(u).(status := ReadyStatus(u))
  }

  lemma QuietReconcile(s: R.Store, k: Key)
    requires Population(s) && k in s.crs && !s.crs[k].deleting && !Registers(s.crs[k])
    ensures var u := s.crs[k];
            var valid := Multiplicador(u.spec) > 0;
            && R.Reconcile(s, u).store ==
                 R.Store(s.checked, s.crs[k := Mark(u)],
                         if valid then R.EnsureDeployment(s.deployments, u) else s.deployments,
                         if valid then R.EnsureService(s.services, u) else s.services, s.proxies)
            && SameMember(u, Mark(u)) && Marked(Mark(u))
  {
    ReconcileIsDirect(s, s.crs[k]);
    MarkedIff(s.crs[k]);
    hide Decimal, Marked;
  }

  predicate SameMember(u: CR, v: CR) {
    v.ns == u.ns && v.name == u.name && v.uid == u.uid && v.spec == u.spec && v.deleting == u.deleting
  }

  lemma PopulationRewritten(s: R.Store, t: R.Store, k: Key, v: CR)
    requires Population(s) && k in s.crs && !s.crs[k].deleting && SameMember(s.crs[k], v)
    requires t.checked == s.checked && t.crs == s.crs[k := v]
    ensures Population(t)
  {
    hide Multiplicador, WaitsForUs;
    forall j | j in t.crs && j != k ensures t.crs[j] == s.crs[j] {
    }
  }

  lemma MemberStays(s: R.Store, k: Key)
    requires Population(s) && k in s.crs && !s.crs[k].deleting
    ensures var t := R.Reconcile(s, s.crs[k]).store;
            && Population(t) && t.crs.Keys == s.crs.Keys
            && SameMember(s.crs[k], t.crs[k])
            && (forall j :: j in s.crs && j != k ==> t.crs[j] == s.crs[j])
  {
    hide Population, R.Reconcile;
    if Registers(s.crs[k]) {
      MemberReconcile(s, k);
      PopulationRewritten(s, R.Reconcile(s, s.crs[k]).store, k, Final(s, s.crs[k]).value);
    } else {
      QuietReconcile(s, k);
      PopulationRewritten(s, R.Reconcile(s, s.crs[k]).store, k, Mark(s.crs[k]));
    }
  }

  // Deployed and enlisted under another record of the same resource.
  lemma DeployedBy(t: R.Store, u: CR, v: CR)
    requires SameMember(u, v) && Deployed(t, u)
    ensures Deployed(t, v)
  {
    assert DeploymentKey(v) == DeploymentKey(u) && ServiceKey(v) == ServiceKey(u);
    if IsValid(u.spec) {
      DesiredBySame(t.deployments[DeploymentKey(u)], t.services[ServiceKey(u)], u, v);
    }
    hide DeploymentDesired, ServiceDesired, DeploymentName, ServiceName;
  }

  lemma FirstReconcileDeploys(s: R.Store, k: Key)
    requires Population(s) && k in s.crs && !s.crs[k].deleting
    ensures Deployed(R.Reconcile(s, s.crs[k]).store, s.crs[k])
  {
    var u := s.crs[k];
    ReconcileStores(s, u);
    EnsuredDeployment(s.deployments, u);
    EnsuredService(s.services, u);
    hide Population, R.Reconcile, R.EnsureDeployment, R.EnsureService, DeploymentDesired, ServiceDesired, IsValid;
    hide DeploymentKey, ServiceKey;
  }

  lemma IndexedIsMarked(u: CR, existed: bool)
    requires Registers(u)
    ensures var v := R.Indexed(R.Validated(u).(status := ReadyStatus(u)), existed);
            && Marked(v) && v.ann.proxy == ProxyName(v) && v.ann.route == PrefixOf(v)
            && Desired(v) == Desired(u) && v.uid == u.uid
  {
    var v := R.Indexed(R.Validated(u).(status := ReadyStatus(u)), existed);
    ValidIff(u.spec);
    StampedIff(v);
    ReportedIff(v);
    hide Decimal, VirtualHostName, Stamped, Reported, IsValid;
  }

  lemma FirstReconcileMarks(s: R.Store, k: Key)
    requires Population(s) && k in s.crs && !s.crs[k].deleting
    ensures var t := R.Reconcile(s, s.crs[k]).store;
            && k in t.crs && SameMember(s.crs[k], t.crs[k]) && Marked(t.crs[k])
            && (Registers(s.crs[k]) ==> Enlisted(t, t.crs[k]))
  {
    var u := s.crs[k];
    if Registers(u) {
      MemberReconcile(s, k);
      RegisterJoins(s.checked, R.LeaveOld(s.checked, s.proxies, u), u);
      IndexedIsMarked(u, Desired(u) in s.proxies);
    } else {
      QuietReconcile(s, k);
    }
    hide Population, R.Reconcile, R.Register, R.LeaveOld, R.Validated, R.Indexed, ReadyStatus;
    hide Final, Mark, Marked, OwnedBy, Lookup, Decimal, Multiplicador, PrefixOf;
  }

  lemma FirstReconcileJoins(s: R.Store, k: Key)
    requires Population(s) && k in s.crs && !s.crs[k].deleting
    ensures Joined(R.Reconcile(s, s.crs[k]).store, k)
  {
    var u := s.crs[k];
    var t := R.Reconcile(s, u).store;
    hide R.Reconcile, Deployed, Enlisted, Marked, Population, SameMember, Registers;
    FirstReconcileDeploys(s, k);
    FirstReconcileMarks(s, k);
    RegistersSame(u, t.crs[k]);
    DeployedBy(t, u, t.crs[k]);
  }

  lemma RegistersSame(u: CR, v: CR)
    requires SameMember(u, v)
    ensures Registers(v) == Registers(u)
  {
  }

  lemma SecondReconcileSettles(s: R.Store, k: Key)
    requires Population(s) && Joined(s, k) && !s.crs[k].deleting
    ensures Settled(R.Reconcile(s, s.crs[k]).store, k)
  {
    FirstReconcileJoins(s, k);
    if Registers(s.crs[k]) {
      MemberReconcile(s, k);
      RegisterJoins(s.checked, R.LeaveOld(s.checked, s.proxies, s.crs[k]), s.crs[k]);
    } else {
      QuietReconcile(s, k);
      RegistersSame(s.crs[k], Mark(s.crs[k]));
    }
    hide Joined, R.Reconcile, Mark, Decimal;
  }

  lemma NothingToClaim(s: R.Store, k: Key)
    requires Settled(s, k)
    ensures Finalized(s.crs[k]) == s.crs[k] && Claimed(s.proxies, s.crs[k]) == s.proxies
  {
    var u := s.crs[k];
    if Registers(u) {
      UpsertSame(s.proxies[Desired(u)].routes, RouteOf(u));
      assert WithClaim(s.proxies[Desired(u)], u) == s.proxies[Desired(u)];
    }
    hide Upsert, Lookup, Marked, Deployed;
  }

  lemma SettledIsFixed(s: R.Store, k: Key)
    requires Fleet(s) && Settled(s, k)
    ensures R.Reconcile(s, s.crs[k]).store == s
  {
    JoinedReconcile(s, k);
    NothingToClaim(s, k);
    assert s.crs[k := s.crs[k]] == s.crs;
    hide R.Reconcile, Fleet, Joined, Claimed, Finalized;
  }

  lemma MergeIsIdentity(p: Proxy, u: CR)
    requires OwnedBy(p.owners, u.uid) && !R.Renamed(u)
    requires Lookup(p.routes, PrefixOf(u)) == Some(ServiceName(u.name))
    requires u.spec.host != "" ==> p.fqdn == u.spec.host
    ensures R.Merge(p, u) == p
  {
    UpsertSame(p.routes, RouteOf(u));
  }

  // ---- One reconcile, seen by the others ----

  lemma EnsureKeepsOwner(checked: bool, proxies: map<Key, Proxy>, u: CR, pk: Key, uid: string)
    requires u.spec.ruta != "" && uid != u.uid
    requires pk in proxies && OwnedBy(proxies[pk].owners, uid)
    ensures var after := R.EnsureProxy(checked, proxies, u);
            pk in after && OwnedBy(after[pk].owners, uid)
  {
    var left := R.LeaveOld(checked, proxies, u);
    LeavingKeepsOwner(checked, proxies, u, pk, uid);
    AddingKeepsOwned(left[pk].owners, SharedOwner(u), uid);
    hide R.LeaveOld, OwnedBy;
  }

  lemma LeavingKeepsOwner(checked: bool, proxies: map<Key, Proxy>, u: CR, pk: Key, uid: string)
    requires uid != u.uid && pk in proxies && OwnedBy(proxies[pk].owners, uid)
    ensures var left := R.LeaveOld(checked, proxies, u);
            pk in left && OwnedBy(left[pk].owners, uid)
  {
    WithoutOwnerMembers(proxies[pk].owners, u.uid);
  }

  lemma AddingKeepsOwned(owners: seq<Owner>, o: Owner, uid: string)
    requires OwnedBy(owners, uid)
    ensures OwnedBy(WithOwner(owners, o), uid)
  {
    var i :| 0 <= i < |owners| && owners[i].uid == uid;
    assert WithOwner(owners, o)[i] == owners[i];
  }

  lemma DistinctNames(s: R.Store, j: Key, k: Key)
    requires Population(s) && j in s.crs && k in s.crs && j != k
    ensures DeploymentKey(s.crs[j]) != DeploymentKey(s.crs[k])
    ensures ServiceKey(s.crs[j]) != ServiceKey(s.crs[k])
  {
    if s.crs[j].name != s.crs[k].name {
      if DeploymentName(s.crs[j].name) == DeploymentName(s.crs[k].name) {
        DeploymentNameInjective(s.crs[j].name, s.crs[k].name);
      }
      if ServiceName(s.crs[j].name) == ServiceName(s.crs[k].name) {
        ServiceNameInjective(s.crs[j].name, s.crs[k].name);
      }
    }
  }

  lemma OthersStayDeployed(s: R.Store, j: Key, k: Key)
    requires Population(s) && j in s.crs && Deployed(s, s.crs[j]) && k in s.crs && j != k && !s.crs[k].deleting
    ensures Deployed(R.Reconcile(s, s.crs[k]).store, s.crs[j])
  {
    DistinctNames(s, j, k);
    ReconcileStores(s, s.crs[k]);
    hide Population, R.Reconcile, R.FixDeployment, R.FixService, R.NewDeployment, R.NewService, IsValid;
    hide DeploymentDesired, ServiceDesired, DeploymentKey, ServiceKey;
  }

  lemma OthersStayEnlisted(s: R.Store, j: Key, k: Key)
    requires Population(s) && j in s.crs && Enlisted(s, s.crs[j]) && k in s.crs && j != k && !s.crs[k].deleting
    ensures Enlisted(R.Reconcile(s, s.crs[k]).store, s.crs[j])
  {
    var u, v := s.crs[k], s.crs[j];
    if Registers(u) {
      MemberReconcile(s, k);
      EnsureKeepsOwner(s.checked, s.proxies, u, Desired(v), v.uid);
    } else {
      QuietReconcile(s, k);
    }
    hide R.Reconcile, R.EnsureProxy, R.EnsureDeployment, R.EnsureService, Final, Mark, Desired, PrefixOf, OwnedBy;
  }

  lemma OthersStayJoined(s: R.Store, j: Key, k: Key)
    requires Population(s) && Joined(s, j) && k in s.crs && j != k && !s.crs[k].deleting
    ensures Joined(R.Reconcile(s, s.crs[k]).store, j)
  {
    hide Population, R.Reconcile, Deployed, Enlisted, Marked, Registers, SameMember;
    MemberStays(s, k);
    OthersStayDeployed(s, j, k);
    if Enlisted(s, s.crs[j]) {
      OthersStayEnlisted(s, j, k);
    }
  }

  // Reconciling another resource leaves a settled one settled exactly when the
  // two are compatible.
  lemma OthersStaySettledIff(s: R.Store, j: Key, k: Key)
    requires Fleet(s) && Settled(s, j) && Joined(s, k) && j != k
    ensures Settled(R.Reconcile(s, s.crs[k]).store, j) <==> Compatible(s.crs[j], s.crs[k])
  {
    OthersStayJoined(s, j, k);
    JoinedReconcile(s, k);
    var u, v := s.crs[k], s.crs[j];
    assert KeyOf(u) == k && KeyOf(v) == j;
    if Registers(u) && Registers(v) && Desired(v) == Desired(u) {
      UpsertLookup(s.proxies[Desired(u)].routes, RouteOf(u), PrefixOf(v));
      if ServiceName(u.name) == ServiceName(v.name) {
        ServiceNameInjective(u.name, v.name);
      }
    }
    hide R.Reconcile, R.EnsureProxy, Marked, Deployed, Upsert, Lookup, OwnedBy, Fleet;
  }

  // What is left to do for a joined resource that registers: its finalizer, and
  // its claim on its proxy's prefix and host.
  function Finalized(u: CR): CR {
    if Registers(u) then u.(finalizers := WithFinalizer(u.finalizers)) else u
  }

  function Claimed(proxies: map<Key, Proxy>, u: CR): map<Key, Proxy>
    requires Registers(u) ==> Desired(u) in proxies
  {
    if Registers(u) then proxies[Desired(u) := WithClaim(proxies[Desired(u)], u)] else proxies
  }

  function WithClaim(p: Proxy, u: CR): Proxy {
    p.(routes := Upsert(p.routes, RouteOf(u)), fqdn := if u.spec.host != "" then u.spec.host else p.fqdn)
  }

  lemma JoinedReconcile(s: R.Store, k: Key)
    requires Fleet(s) && Joined(s, k)
    ensures var u := s.crs[k];
            R.Reconcile(s, u).store == s.(crs := s.crs[k := Finalized(u)], proxies := Claimed(s.proxies, u))
  {
    var u := s.crs[k];
    DeployedStays(s, u);
    if Registers(u) {
      MemberReconcile(s, k);
      JoinedClaims(s, k);
      JoinedFinal(s, u);
    } else {
      QuietReconcile(s, k);
      MarkedIff(u);
    }
    hide R.Reconcile, R.EnsureProxy, R.EnsureDeployment, R.EnsureService, Final, Mark, Deployed, Marked;
  }

  lemma JoinedFinal(s: R.Store, u: CR)
    requires Registers(u) && Marked(u) && Enlisted(s, u) && !u.deleting
    ensures Final(s, u) == Some(Finalized(u))
  {
    MarkedIff(u);
    hide Marked, Decimal, ReadyStatus;
  }

  lemma DeployedStays(s: R.Store, u: CR)
    requires Deployed(s, u)
    ensures Multiplicador(u.spec) > 0 ==>
              R.EnsureDeployment(s.deployments, u) == s.deployments && R.EnsureService(s.services, u) == s.services
  {
    ValidIff(u.spec);
    if IsValid(u.spec) {
      DeploymentCorrected(s.deployments[DeploymentKey(u)], u);
      ServiceCorrected(s.services[ServiceKey(u)], u);
    }
    hide R.FixDeployment, R.FixService, DeploymentDesired, ServiceDesired, DeploymentKey, ServiceKey, IsValid;
  }

  lemma JoinedClaims(s: R.Store, k: Key)
    requires Fleet(s) && Joined(s, k) && Registers(s.crs[k])
    ensures R.EnsureProxy(s.checked, s.proxies, s.crs[k]) == Claimed(s.proxies, s.crs[k])
  {
    hide Marked, Deployed, Upsert;
  }

  // ---- Leavers ----

  lemma LeaverReconcile(s: R.Store, k: Key)
    requires Population(s) && k in s.crs && s.crs[k].deleting
    ensures R.Reconcile(s, s.crs[k]).store ==
              s.(crs := s.crs - {k}, proxies := R.CleanupProxy(s.checked, s.proxies, s.crs[k]))
  {
    ReconcileIsDirect(s, s.crs[k]);
    hide R.CleanupProxy, R.Reconcile, R.EnsureDeployment, R.EnsureService, R.EnsureProxy;
  }

  lemma LeaverGone(s: R.Store, k: Key)
    requires Population(s) && k in s.crs && s.crs[k].deleting
    ensures Population(R.Reconcile(s, s.crs[k]).store)
  {
    LeaverReconcile(s, k);
    hide R.Reconcile, R.CleanupProxy, WaitsForUs;
  }

  lemma CleanupKeepsOwner(checked: bool, proxies: map<Key, Proxy>, u: CR, pk: Key, uid: string)
    requires uid != u.uid && pk in proxies && OwnedBy(proxies[pk].owners, uid)
    ensures var after := R.CleanupProxy(checked, proxies, u);
            pk in after && OwnedBy(after[pk].owners, uid)
  {
    WithoutOwnerMembers(proxies[pk].owners, u.uid);
  }

  // Whoever has joined stays so when another is seen off, whatever routes go.
  lemma OthersStayJoinedIn(s: R.Store, j: Key, k: Key)
    requires Population(s) && Joined(s, j) && k in s.crs && j != k && s.crs[k].deleting
    ensures Joined(R.Reconcile(s, s.crs[k]).store, j)
  {
    LeaverReconcile(s, k);
    if Registers(s.crs[j]) {
      CleanupKeepsOwner(s.checked, s.proxies, s.crs[k], Desired(s.crs[j]), s.crs[j].uid);
    }
    hide R.Reconcile, R.CleanupProxy, Marked, DeploymentDesired, ServiceDesired, OwnedBy, IsValid;
  }

  // ---- Sweeps ----

  // The resources that were not being deleted are there, with the same specs, and
  // no others but some that were.
  ghost predicate SameStayers(s: R.Store, t: R.Store) {
    && (forall k :: k in t.crs ==> k in s.crs && SameMember(s.crs[k], t.crs[k]))
    && (forall k :: k in s.crs && !s.crs[k].deleting ==> k in t.crs)
  }

  // The same resources with the same specs.
  ghost predicate SameFleet(s: R.Store, t: R.Store) {
    && t.crs.Keys == s.crs.Keys
    && (forall j :: j in s.crs ==> SameMember(s.crs[j], t.crs[j]))
  }

  ghost predicate SeenToSoFar(t: R.Store, items: seq<CR>, n: nat)
    requires n <= |items|
  {
    forall i :: 0 <= i < n ==> SeenTo(t, items[i])
  }

  // A listed resource after its turn: gone if it was being deleted, else joined.
  ghost predicate SeenTo(t: R.Store, item: CR) {
    if item.deleting then KeyOf(item) !in t.crs else Joined(t, KeyOf(item))
  }

  // Where a sweep over `items` stands after `n` of them: the stayers are the same,
  // the rest of the listing is still current, and the first `n` have been seen to.
  ghost predicate Swept(s: R.Store, t: R.Store, items: seq<CR>, n: nat)
    requires n <= |items|
  {
    SameStayers(s, t) && StillListed(t, items, n) && SeenToSoFar(t, items, n)
  }

  // One reconcile of `k` takes `t` to `t'` and disturbs nobody else.
  ghost predicate Steps(t: R.Store, t': R.Store, k: Key) {
    && k in t.crs && t'.crs.Keys == (if t.crs[k].deleting then t.crs.Keys - {k} else t.crs.Keys)
    && (forall j :: j in t.crs && j != k ==> t'.crs[j] == t.crs[j])
    && (!t.crs[k].deleting ==> SameMember(t.crs[k], t'.crs[k]) && Joined(t', k))
    && (forall j :: j != k && Joined(t, j) ==> Joined(t', j))
  }

  lemma StayerSteps(t: R.Store, k: Key)
    requires Population(t) && k in t.crs && !t.crs[k].deleting
    ensures Population(R.Reconcile(t, t.crs[k]).store)
    ensures Steps(t, R.Reconcile(t, t.crs[k]).store, k)
  {
    hide Population, Joined, R.Reconcile, SameMember;
    MemberStays(t, k);
    FirstReconcileJoins(t, k);
    forall j | j != k && Joined(t, j) ensures Joined(R.Reconcile(t, t.crs[k]).store, j) {
      OthersStayJoined(t, j, k);
    }
  }

  lemma LeaverSteps(t: R.Store, k: Key)
    requires Population(t) && k in t.crs && t.crs[k].deleting
    ensures Population(R.Reconcile(t, t.crs[k]).store)
    ensures Steps(t, R.Reconcile(t, t.crs[k]).store, k)
  {
    hide Population, Joined, R.Reconcile, R.CleanupProxy;
    LeaverReconcile(t, k);
    LeaverGone(t, k);
    forall j | j != k && Joined(t, j) ensures Joined(R.Reconcile(t, t.crs[k]).store, j) {
      OthersStayJoinedIn(t, j, k);
    }
  }

  lemma ReconcileSteps(t: R.Store, k: Key)
    requires Population(t) && k in t.crs
    ensures Population(R.Reconcile(t, t.crs[k]).store)
    ensures Steps(t, R.Reconcile(t, t.crs[k]).store, k)
  {
    hide Population, R.Reconcile, Steps;
    if t.crs[k].deleting {
      LeaverSteps(t, k);
    } else {
      StayerSteps(t, k);
    }
  }

  lemma SameStayersFurther(s: R.Store, t: R.Store, t': R.Store, k: Key)
    requires SameStayers(s, t) && Steps(t, t', k)
    ensures SameStayers(s, t')
  {
    hide Joined;
    assert forall j :: j in t'.crs ==> j in t.crs;
  }

  lemma OthersListed(items: seq<CR>, n: nat, i: nat, s: R.Store)
    requires Lists(s, items) && n < |items| && i < |items| && i != n
    ensures KeyOf(items[i]) != KeyOf(items[n])
  {
  }

  lemma ListedFurther(s: R.Store, t: R.Store, t': R.Store, items: seq<CR>, n: nat)
    requires Lists(s, items) && n < |items| && StillListed(t, items, n)
    requires Steps(t, t', KeyOf(items[n]))
    ensures StillListed(t', items, n + 1)
  {
    hide Joined, Lists;
    forall i | n + 1 <= i < |items| ensures KeyOf(items[i]) in t'.crs && t'.crs[KeyOf(items[i])] == items[i] {
      OthersListed(items, n, i, s);
    }
  }

  lemma SeenToFurther(s: R.Store, t: R.Store, t': R.Store, items: seq<CR>, n: nat)
    requires Lists(s, items) && n < |items| && SeenToSoFar(t, items, n)
    requires Steps(t, t', KeyOf(items[n])) && t.crs[KeyOf(items[n])] == items[n]
    ensures SeenToSoFar(t', items, n + 1)
  {
    hide Joined, Lists;
    forall i | 0 <= i < n + 1 ensures SeenTo(t', items[i]) {
      if i < n {
        OthersListed(items, n, i, s);
        assert SeenTo(t, items[i]);
      }
    }
  }

  lemma SweptFurther(s: R.Store, t: R.Store, t': R.Store, items: seq<CR>, n: nat)
    requires Lists(s, items) && n < |items| && Swept(s, t, items, n)
    requires Steps(t, t', KeyOf(items[n]))
    ensures Swept(s, t', items, n + 1)
  {
    assert t.crs[KeyOf(items[n])] == items[n];
    hide Joined, SameStayers, Lists, Steps, StillListed, SeenToSoFar;
    SameStayersFurther(s, t, t', KeyOf(items[n]));
    ListedFurther(s, t, t', items, n);
    SeenToFurther(s, t, t', items, n);
  }

  lemma SweepNext(s: R.Store, items: seq<CR>, n: nat)
    requires n < |items|
    ensures R.Sweep(s, items[..n + 1]) == R.Reconcile(R.Sweep(s, items[..n]), items[n]).store
  {
    assert items[..n + 1][..n] == items[..n];
  }

  lemma SweepStep(s: R.Store, t: R.Store, t': R.Store, items: seq<CR>, n: nat)
    requires Lists(s, items) && n < |items| && Population(t) && Swept(s, t, items, n)
    requires t' == R.Reconcile(t, items[n]).store
    ensures Population(t') && Swept(s, t', items, n + 1)
  {
    hide Population, Joined, R.Reconcile;
    ReconcileSteps(t, KeyOf(items[n]));
    SweptFurther(s, t, t', items, n);
  }

  lemma NothingSwept(s: R.Store, items: seq<CR>)
    requires Lists(s, items)
    ensures R.Sweep(s, items[..0]) == s && Swept(s, s, items, 0)
  {
  }

  lemma {:induction false} FirstSweep(s: R.Store, items: seq<CR>, n: nat, t: R.Store)
    requires Population(s) && Lists(s, items) && n <= |items| && t == R.Sweep(s, items[..n])
    ensures Population(t) && Swept(s, t, items, n)
  {
    hide Population, Joined, R.Reconcile;
    if n == 0 {
      NothingSwept(s, items);
    } else {
      var t0 := R.Sweep(s, items[..n - 1]);
      FirstSweep(s, items, n - 1, t0);
      SweepNext(s, items, n - 1);
      SweepStep(s, t0, t, items, n - 1);
    }
  }

  // ---- Who wins a prefix, and a host ----

  predicate Claims(u: CR, pk: Key) {
    Registers(u) && Desired(u) == pk
  }

  // The last of the first n listed resources to claim a prefix of a proxy.
  function Winner(items: seq<CR>, n: nat, pk: Key, prefix: string): Option<string>
    requires n <= |items|
  {
    if n == 0 then None
    else if Claims(items[n - 1], pk) && PrefixOf(items[n - 1]) == prefix then Some(items[n - 1].name)
    else Winner(items, n - 1, pk, prefix)
  }

  // The last host they give it.
  function HostWinner(items: seq<CR>, n: nat, pk: Key): Option<string>
    requires n <= |items|
  {
    if n == 0 then None
    else if Claims(items[n - 1], pk) && items[n - 1].spec.host != "" then Some(items[n - 1].spec.host)
    else HostWinner(items, n - 1, pk)
  }

  lemma {:induction false} WinnerIs(items: seq<CR>, n: nat, pk: Key, prefix: string) returns (i: nat)
    requires n <= |items| && Winner(items, n, pk, prefix).Some?
    ensures i < n && Claims(items[i], pk) && PrefixOf(items[i]) == prefix
    ensures Winner(items, n, pk, prefix) == Some(items[i].name)
  {
    hide Claims, PrefixOf;
    i := n - 1;
    if !Claims(items[i], pk) || PrefixOf(items[i]) != prefix {
      i := WinnerIs(items, n - 1, pk, prefix);
    }
  }

  lemma {:induction false} HostWinnerIs(items: seq<CR>, n: nat, pk: Key) returns (i: nat)
    requires n <= |items| && HostWinner(items, n, pk).Some?
    ensures i < n && Claims(items[i], pk) && items[i].spec.host != ""
    ensures HostWinner(items, n, pk) == Some(items[i].spec.host)
  {
    hide Claims;
    i := n - 1;
    if !Claims(items[i], pk) || items[i].spec.host == "" {
      i := HostWinnerIs(items, n - 1, pk);
    }
  }

  lemma {:induction false} SomeoneWins(items: seq<CR>, n: nat, i: nat, pk: Key)
    requires i < n <= |items| && Claims(items[i], pk)
    ensures Winner(items, n, pk, PrefixOf(items[i])).Some?
    ensures items[i].spec.host != "" ==> HostWinner(items, n, pk).Some?
  {
    hide Claims, PrefixOf;
    if i < n - 1 {
      SomeoneWins(items, n - 1, i, pk);
    }
  }

  // Where the proxies stand after n of the items have made their claims.
  ghost predicate Won(proxies: map<Key, Proxy>, items: seq<CR>, n: nat)
    requires n <= |items|
  {
    && (forall pk, prefix :: WonPrefix(proxies, items, n, pk, prefix))
    && (forall pk :: WonHost(proxies, items, n, pk))
  }

  predicate WonPrefix(proxies: map<Key, Proxy>, items: seq<CR>, n: nat, pk: Key, prefix: string)
    requires n <= |items|
  {
    var w := Winner(items, n, pk, prefix);
    w.Some? ==> pk in proxies && Lookup(proxies[pk].routes, prefix) == Some(ServiceName(w.value))
  }

  predicate WonHost(proxies: map<Key, Proxy>, items: seq<CR>, n: nat, pk: Key)
    requires n <= |items|
  {
    var h := HostWinner(items, n, pk);
    h.Some? ==> pk in proxies && proxies[pk].fqdn == h.value
  }

  lemma ClaimedIs(proxies: map<Key, Proxy>, u: CR, pk: Key, prefix: string)
    requires (Registers(u) ==> Desired(u) in proxies) && pk in proxies
    ensures var after := Claimed(proxies, u);
            && pk in after
            && Lookup(after[pk].routes, prefix) ==
                 (if Claims(u, pk) && prefix == PrefixOf(u) then Some(ServiceName(u.name))
                  else Lookup(proxies[pk].routes, prefix))
            && after[pk].fqdn == if Claims(u, pk) && u.spec.host != "" then u.spec.host else proxies[pk].fqdn
  {
    if Registers(u) {
      UpsertLookup(proxies[Desired(u)].routes, RouteOf(u), prefix);
    }
    hide Upsert, Lookup, Registers;
  }

  lemma ClaimsMeans(u: CR, pk: Key)
    requires Claims(u, pk)
    ensures Registers(u) && Desired(u) == pk
  {
  }

  lemma WonFurther(proxies: map<Key, Proxy>, after: map<Key, Proxy>, items: seq<CR>, n: nat)
    requires n < |items| && Won(proxies, items, n) && (Registers(items[n]) ==> Desired(items[n]) in proxies)
    requires after == Claimed(proxies, items[n])
    ensures Won(after, items, n + 1)
  {
    var u := items[n];
    var m := n + 1;
    hide Claimed, Lookup, Desired, PrefixOf, ServiceName, Claims, Registers;
    forall pk, prefix ensures WonPrefix(after, items, m, pk, prefix) {
      assert WonPrefix(proxies, items, n, pk, prefix);
      if Claims(u, pk) {
        ClaimsMeans(u, pk);
      }
      if pk in proxies {
        ClaimedIs(proxies, u, pk, prefix);
      }
    }
    forall pk ensures WonHost(after, items, m, pk) {
      assert WonHost(proxies, items, n, pk);
      if Claims(u, pk) {
        ClaimsMeans(u, pk);
      }
      if pk in proxies {
        ClaimedIs(proxies, u, pk, "");
      }
    }
  }

  // ---- A sweep over a joined fleet ----

  ghost predicate EveryoneJoined(t: R.Store) {
    forall j :: j in t.crs ==> Joined(t, j)
  }

  // Where a later sweep stands after n items.
  ghost predicate Claiming(s: R.Store, t: R.Store, items: seq<CR>, n: nat)
    requires n <= |items|
  {
    && Fleet(t) && Swept(s, t, items, n) && EveryoneJoined(t) && Won(t.proxies, items, n)
    && FinalizedSoFar(t, items, n)
  }

  ghost predicate FinalizedSoFar(t: R.Store, items: seq<CR>, n: nat)
    requires n <= |items|
  {
    forall i :: 0 <= i < n ==> KeyOf(items[i]) in t.crs && HasFinalizer(t.crs[KeyOf(items[i])])
  }

  predicate HasFinalizer(u: CR) {
    Registers(u) ==> FINALIZER in u.finalizers
  }

  lemma FinalizersFurther(s: R.Store, t: R.Store, t': R.Store, items: seq<CR>, n: nat)
    requires Lists(s, items) && n < |items| && KeyOf(items[n]) in t.crs && FinalizedSoFar(t, items, n)
    requires var k := KeyOf(items[n]); t'.crs == t.crs[k := Finalized(t.crs[k])]
    ensures FinalizedSoFar(t', items, n + 1)
  {
    assert HasFinalizer(Finalized(t.crs[KeyOf(items[n])]));
    hide Lists, KeyOf, HasFinalizer, Finalized;
  }

  lemma JoinedFurther(t: R.Store, t': R.Store, k: Key)
    requires Steps(t, t', k) && EveryoneJoined(t)
    ensures EveryoneJoined(t')
  {
    hide Joined, Fleet;
    forall j | j in t'.crs ensures Joined(t', j) {
      assert j in t.crs && (j != k ==> Joined(t, j));
    }
  }

  // One reconcile of a joined resource.
  ghost predicate Advances(t: R.Store, t': R.Store, k: Key) {
    && k in t.crs && (Registers(t.crs[k]) ==> Desired(t.crs[k]) in t.proxies)
    && Fleet(t') && Steps(t, t', k)
    && t'.crs == t.crs[k := Finalized(t.crs[k])]
    && t'.proxies == Claimed(t.proxies, t.crs[k])
  }

  lemma FleetSteps(t: R.Store, t': R.Store, k: Key)
    requires Fleet(t) && Population(t') && Steps(t, t', k)
    ensures Fleet(t')
  {
    hide Population, Joined;
    forall j | j in t'.crs ensures !t'.crs[j].deleting {
      assert j == k || t'.crs[j] == t.crs[j];
    }
  }

  lemma JoinedAdvances(t: R.Store, k: Key)
    requires Fleet(t) && Joined(t, k)
    ensures Advances(t, R.Reconcile(t, t.crs[k]).store, k)
  {
    JoinedReconcile(t, k);
    ReconcileSteps(t, k);
    FleetSteps(t, R.Reconcile(t, t.crs[k]).store, k);
    hide Fleet, Steps, R.Reconcile, Claimed, Finalized;
  }

  lemma ClaimingFurther(s: R.Store, t: R.Store, t': R.Store, items: seq<CR>, n: nat)
    requires Lists(s, items) && n < |items| && Claiming(s, t, items, n)
    requires Advances(t, t', KeyOf(items[n])) && t.crs[KeyOf(items[n])] == items[n]
    ensures Claiming(s, t', items, n + 1)
  {
    hide Fleet, Won, EveryoneJoined, Lists, Swept, Steps, Claimed, KeyOf, FinalizedSoFar, Finalized, Registers;
    SweptFurther(s, t, t', items, n);
    JoinedFurther(t, t', KeyOf(items[n]));
    WonFurther(t.proxies, t'.proxies, items, n);
    FinalizersFurther(s, t, t', items, n);
  }

  lemma ClaimingStep(s: R.Store, t: R.Store, items: seq<CR>, n: nat)
    requires Lists(s, items) && n < |items| && Claiming(s, t, items, n)
    ensures Claiming(s, R.Reconcile(t, items[n]).store, items, n + 1)
  {
    var k := KeyOf(items[n]);
    assert k in t.crs && t.crs[k] == items[n] && Joined(t, k);
    assert Fleet(t);
    JoinedAdvances(t, k);
    hide Claiming, Fleet, Joined, R.Reconcile, Advances, Lists;
    ClaimingFurther(s, t, R.Reconcile(t, items[n]).store, items, n);
  }

  lemma {:induction false} LaterSweep(s: R.Store, items: seq<CR>, n: nat, t: R.Store)
    requires Fleet(s) && Lists(s, items) && n <= |items| && t == R.Sweep(s, items[..n])
    requires EveryoneJoined(s)
    ensures Claiming(s, t, items, n)
  {
    if n == 0 {
      NothingClaimed(s, items);
    } else {
      hide *;
      var t0 := R.Sweep(s, items[..n - 1]);
      LaterSweep(s, items, n - 1, t0);
      SweepNext(s, items, n - 1);
      ClaimingStep(s, t0, items, n - 1);
    }
  }

  lemma NothingClaimed(s: R.Store, items: seq<CR>)
    requires Fleet(s) && Lists(s, items) && EveryoneJoined(s)
    ensures Claiming(s, R.Sweep(s, items[..0]), items, 0)
  {
    NothingSwept(s, items);
    hide Fleet, Joined, Lists, Swept, R.Reconcile;
  }

  // ---- What two sweeps leave ----

  ghost predicate Converged(t: R.Store) {
    forall k :: k in t.crs ==> Settled(t, k)
  }

  lemma SameStayersTwice(s: R.Store, s1: R.Store, s2: R.Store)
    requires SameStayers(s, s1) && SameStayers(s1, s2)
    ensures SameStayers(s, s2)
  {
    forall k | k in s2.crs ensures k in s.crs && SameMember(s.crs[k], s2.crs[k]) {
      assert k in s1.crs && SameMember(s.crs[k], s1.crs[k]);
    }
    forall k | k in s.crs && !s.crs[k].deleting ensures k in s2.crs {
      assert k in s1.crs && SameMember(s.crs[k], s1.crs[k]);
    }
  }

  lemma NobodyLeft(s: R.Store, t: R.Store)
    requires Fleet(s) && SameStayers(s, t)
    ensures SameFleet(s, t)
  {
    hide Population;
    assert forall k :: k in t.crs <==> k in s.crs;
  }

  lemma CompatibleStays(s: R.Store, t: R.Store)
    requires SameStayers(s, t)
    ensures AllCompatible(t) <==> AllCompatible(s)
  {
    forall j, k | j in t.crs && k in t.crs
      ensures Compatible(t.crs[j], t.crs[k]) <==> Compatible(s.crs[j], s.crs[k])
    {
      SameClaims(s.crs[j], t.crs[j]);
      SameClaims(s.crs[k], t.crs[k]);
    }
    hide Compatible;
  }

  lemma SameClaims(u: CR, v: CR)
    requires SameMember(u, v)
    ensures Desired(v) == Desired(u) && PrefixOf(v) == PrefixOf(u) && v.spec.host == u.spec.host
    ensures KeyOf(v) == KeyOf(u) && Registers(v) == Registers(u)
  {
  }

  lemma AllJoined(s: R.Store, items: seq<CR>, t: R.Store)
    requires Lists(s, items) && Population(t) && Swept(s, t, items, |items|)
    ensures Fleet(t) && EveryoneJoined(t)
  {
    hide Joined, Settled, Population;
    forall k | k in t.crs ensures Joined(t, k) && !t.crs[k].deleting {
      var i :| 0 <= i < |items| && KeyOf(items[i]) == k;
      assert SeenTo(t, items[i]) && s.crs[k] == items[i];
    }
  }

  lemma FullSweeps(s: R.Store, first: seq<CR>, s1: R.Store, second: seq<CR>, s2: R.Store)
    requires Population(s) && Lists(s, first) && s1 == R.Sweep(s, first)
    requires Lists(s1, second) && s2 == R.Sweep(s1, second)
    ensures Swept(s, s1, first, |first|) && Fleet(s1) && EveryoneJoined(s1)
    ensures Claiming(s1, s2, second, |second|)
  {
    hide *;
    assert first[..|first|] == first && second[..|second|] == second;
    FirstSweep(s, first, |first|, s1);
    AllJoined(s, first, s1);
    LaterSweep(s1, second, |second|, s2);
  }

  // A resource of the fleet in the listing, before and after the sweep.
  lemma Listed(s: R.Store, items: seq<CR>, t: R.Store, k: Key) returns (i: nat)
    requires Lists(s, items) && SameStayers(s, t) && k in t.crs
    ensures i < |items| && KeyOf(items[i]) == k && SameMember(items[i], t.crs[k])
  {
    var j :| 0 <= j < |items| && KeyOf(items[j]) == k;
    i := j;
  }

  // Listed resources that claim the same are, when all are compatible, the same.
  lemma SameClaimSameItem(s: R.Store, items: seq<CR>, i: nat, j: nat, pk: Key)
    requires Fleet(s) && Lists(s, items) && AllCompatible(s) && i < |items| && j < |items|
    requires Claims(items[i], pk) && Claims(items[j], pk)
    ensures PrefixOf(items[i]) == PrefixOf(items[j]) ==> items[i] == items[j]
    ensures items[i].spec.host != "" && items[j].spec.host != "" ==> items[i].spec.host == items[j].spec.host
  {
    if KeyOf(items[i]) != KeyOf(items[j]) {
      assert Compatible(items[i], items[j]);
    }
    hide Desired, PrefixOf;
  }

  // Without rivals, what a resource claims it gets.
  lemma WinnersSettle(s: R.Store, items: seq<CR>, t: R.Store, k: Key)
    requires Fleet(s) && Lists(s, items) && AllCompatible(s) && Claiming(s, t, items, |items|) && k in t.crs
    ensures Settled(t, k)
  {
    var i := Listed(s, items, t, k);
    var u := t.crs[k];
    SameClaims(items[i], u);
    assert Joined(t, k) && items[i].name == u.name && HasFinalizer(u);
    hide Joined, Fleet, Swept, Lists, AllCompatible, EveryoneJoined, Desired, PrefixOf, Lookup, ServiceName;
    if Registers(u) {
      var pk, prefix := Desired(u), PrefixOf(u);
      SomeoneWins(items, |items|, i, pk);
      assert WonPrefix(t.proxies, items, |items|, pk, prefix) && WonHost(t.proxies, items, |items|, pk);
      var w := WinnerIs(items, |items|, pk, prefix);
      SameClaimSameItem(s, items, i, w, pk);
      if u.spec.host != "" {
        var h := HostWinnerIs(items, |items|, pk);
        SameClaimSameItem(s, items, i, h, pk);
      }
    }
  }

  // Two settled resources are never in each other's way.
  lemma SettledAreCompatible(t: R.Store)
    requires Fleet(t) && Converged(t)
    ensures AllCompatible(t)
  {
    hide Joined, Lookup;
    forall j, k | j in t.crs && k in t.crs && j != k ensures Compatible(t.crs[j], t.crs[k]) {
      assert Settled(t, j) && Settled(t, k) && KeyOf(t.crs[j]) == j && KeyOf(t.crs[k]) == k;
      if ServiceName(t.crs[j].name) == ServiceName(t.crs[k].name) {
        ServiceNameInjective(t.crs[j].name, t.crs[k].name);
      }
    }
  }

  lemma {:induction false} IdleSweep(s: R.Store, items: seq<CR>)
    requires Fleet(s) && StillListed(s, items, 0) && Converged(s)
    ensures R.Sweep(s, items) == s
  {
    hide Fleet, Settled, R.Reconcile;
    if |items| > 0 {
      IdleSweep(s, items[..|items| - 1]);
      SettledIsFixed(s, KeyOf(items[|items| - 1]));
    }
  }

  lemma ConvergedIff(s: R.Store, items: seq<CR>, t: R.Store)
    requires Fleet(s) && Lists(s, items) && Claiming(s, t, items, |items|)
    ensures Converged(t) <==> AllCompatible(s)
  {
    CompatibleStays(s, t);
    if AllCompatible(s) {
      hide Settled, Claiming, AllCompatible, Lists;
      forall k | k in t.crs ensures Settled(t, k) {
        WinnersSettle(s, items, t, k);
      }
    } else if Converged(t) {
      hide Settled;
      SettledAreCompatible(t);
    }
  }

  // From any annotations and any proxies, two sweeps see off whatever is being
  // deleted, leave every other spec as it was, everyone joined, and each prefix and
  // host with the last listed to claim it.  They settle everyone exactly when all
  // specs that stay are compatible; and then a third sweep is idle.
  lemma TwoSweepsConverge(s: R.Store, first: seq<CR>, s1: R.Store, second: seq<CR>, s2: R.Store, third: seq<CR>)
    requires Population(s) && Lists(s, first) && s1 == R.Sweep(s, first)
    requires Lists(s1, second) && s2 == R.Sweep(s1, second)
    requires Lists(s2, third)
    ensures SameStayers(s, s2) && Fleet(s2) && EveryoneJoined(s2) && Won(s2.proxies, second, |second|)
    ensures Converged(s2) <==> AllCompatible(s)
    ensures AllCompatible(s) ==> R.Sweep(s2, third) == s2
  {
    hide R.Sweep, Fleet, Converged, AllCompatible, SameStayers, StillListed, SeenToSoFar, EveryoneJoined, Won;
    FullSweeps(s, first, s1, second, s2);
    SameStayersTwice(s, s1, s2);
    CompatibleStays(s, s1);
    ConvergedIff(s1, second, s2);
    if AllCompatible(s) {
      IdleSweep(s2, third);
    }
  }

  // ---- What a third sweep does ----

  // After two sweeps: nothing is missing, though not everyone need have its claim.
  ghost predicate Enrolled(s: R.Store) {
    Fleet(s) && EveryoneJoined(s) && forall k :: k in s.crs ==> HasRoute(s, s.crs[k])
  }

  predicate HasRoute(s: R.Store, u: CR) {
    Registers(u) ==>
      && FINALIZER in u.finalizers && Desired(u) in s.proxies
      && Lookup(s.proxies[Desired(u)].routes, PrefixOf(u)).Some?
  }

  lemma TwoSweepsEnroll(s: R.Store, items: seq<CR>, t: R.Store)
    requires Lists(s, items) && Claiming(s, t, items, |items|)
    ensures Enrolled(t)
  {
    hide Joined, Lookup, Lists, Desired, PrefixOf;
    forall k | k in t.crs ensures HasRoute(t, t.crs[k]) {
      var i := Listed(s, items, t, k);
      SameClaims(items[i], t.crs[k]);
      assert HasFinalizer(t.crs[k]);
      if Registers(items[i]) {
        var pk := Desired(items[i]);
        SomeoneWins(items, |items|, i, pk);
        assert WonPrefix(t.proxies, items, |items|, pk, PrefixOf(items[i]));
      }
    }
  }

  ghost predicate PrefixClaimed(s: R.Store, pk: Key, prefix: string) {
    exists k :: k in s.crs && Claims(s.crs[k], pk) && PrefixOf(s.crs[k]) == prefix
  }

  ghost predicate HostClaimed(s: R.Store, pk: Key) {
    exists k :: k in s.crs && Claims(s.crs[k], pk) && s.crs[k].spec.host != ""
  }

  // A proxy in which at most claimed routes and a claimed host have changed hands.
  ghost predicate HandedOver(s: R.Store, pk: Key, p: Proxy, q: Proxy) {
    && q.owners == p.owners && q.rv == p.rv && |q.routes| == |p.routes|
    && (forall r :: 0 <= r < |p.routes| ==> q.routes[r].prefix == p.routes[r].prefix)
    && (forall r :: 0 <= r < |p.routes| && q.routes[r] != p.routes[r] ==>
          FirstRoute(p.routes, p.routes[r].prefix) == r && PrefixClaimed(s, pk, p.routes[r].prefix))
    && (q.fqdn != p.fqdn ==> HostClaimed(s, pk))
  }

  ghost predicate OnlyHandsOver(s: R.Store, t: R.Store) {
    && t == s.(proxies := t.proxies) && t.proxies.Keys == s.proxies.Keys
    && (forall pk :: pk in s.proxies ==> HandedOver(s, pk, s.proxies[pk], t.proxies[pk]))
  }

  lemma SameFirstRoute(a: seq<Route>, b: seq<Route>, prefix: string)
    requires |a| == |b| && forall r :: 0 <= r < |a| ==> a[r].prefix == b[r].prefix
    ensures FirstRoute(a, prefix) == FirstRoute(b, prefix)
  {
    var i, j := FirstRoute(a, prefix), FirstRoute(b, prefix);
    hide FirstRoute;
    assert i < |a| ==> b[i].prefix == prefix;
    assert j < |b| ==> a[j].prefix == prefix;
  }

  lemma ClaimHandsOver(s: R.Store, k: Key, p: Proxy, q: Proxy)
    requires k in s.crs && Registers(s.crs[k]) && HandedOver(s, Desired(s.crs[k]), p, q)
    requires Lookup(p.routes, PrefixOf(s.crs[k])).Some?
    ensures HandedOver(s, Desired(s.crs[k]), p, WithClaim(q, s.crs[k]))
  {
    SameFirstRoute(p.routes, q.routes, PrefixOf(s.crs[k]));
    assert Claims(s.crs[k], Desired(s.crs[k]));
    hide FirstRoute, Desired, PrefixOf, ServiceName, Claims;
  }

  lemma JoinedRepeats(t: R.Store, k: Key)
    requires Fleet(t) && Joined(t, k) && HasFinalizer(t.crs[k])
    ensures R.Reconcile(t, t.crs[k]).store == t.(proxies := Claimed(t.proxies, t.crs[k]))
  {
    JoinedReconcile(t, k);
    var u := t.crs[k];
    assert Finalized(u) == u && t.crs[k := u] == t.crs;
    hide Fleet, Joined, R.Reconcile, Claimed, Finalized;
  }

  lemma ClaimOnlyHandsOver(s: R.Store, t: R.Store, k: Key)
    requires OnlyHandsOver(s, t) && k in s.crs && HasRoute(s, s.crs[k])
    ensures Registers(s.crs[k]) ==> Desired(s.crs[k]) in t.proxies
    ensures OnlyHandsOver(s, t.(proxies := Claimed(t.proxies, s.crs[k])))
  {
    hide HandedOver, Desired, Lookup, WithClaim, PrefixOf, Registers;
    if Registers(s.crs[k]) {
      var pk := Desired(s.crs[k]);
      ClaimHandsOver(s, k, s.proxies[pk], t.proxies[pk]);
    }
  }

  lemma RepeatStep(s: R.Store, t: R.Store, k: Key)
    requires Enrolled(s) && OnlyHandsOver(s, t) && k in s.crs && Fleet(t) && Joined(t, k)
    ensures OnlyHandsOver(s, R.Reconcile(t, t.crs[k]).store)
  {
    assert t.crs == s.crs;
    assert HasRoute(s, s.crs[k]);
    ClaimOnlyHandsOver(s, t, k);
    hide Enrolled, Fleet, R.Reconcile, HandedOver, Desired, Claimed;
    JoinedRepeats(t, k);
    hide Joined, OnlyHandsOver;
  }

  lemma {:induction false} RepeatSweep(s: R.Store, items: seq<CR>, n: nat)
    requires Enrolled(s) && Lists(s, items) && n <= |items|
    ensures OnlyHandsOver(s, R.Sweep(s, items[..n]))
  {
    if n == 0 {
      NothingSwept(s, items);
    } else {
      RepeatSweep(s, items, n - 1);
      var t := R.Sweep(s, items[..n - 1]);
      LaterSweep(s, items, n - 1, t);
      SweepNext(s, items, n - 1);
      var k := KeyOf(items[n - 1]);
      assert k in s.crs && k in t.crs && t.crs[k] == items[n - 1] && Joined(t, k);
      hide Enrolled, OnlyHandsOver, Fleet, Joined, R.Reconcile, R.Sweep, Lists;
      RepeatStep(s, t, k);
    }
  }

  // Two listings of a fleet in which every claim goes to the same resource.
  ghost predicate SameWinners(a: seq<CR>, b: seq<CR>) {
    && (forall pk, prefix :: Winner(a, |a|, pk, prefix) == Winner(b, |b|, pk, prefix))
    && (forall pk :: HostWinner(a, |a|, pk) == HostWinner(b, |b|, pk))
  }

  // What both have claimed, both have given to somebody.
  lemma SomeoneInBoth(s: R.Store, a: seq<CR>, t: R.Store, b: seq<CR>, pk: Key, prefix: string)
    requires Lists(s, a) && Lists(t, b) && SameFleet(s, t)
    ensures Winner(a, |a|, pk, prefix).Some? <==> Winner(b, |b|, pk, prefix).Some?
    ensures HostWinner(a, |a|, pk).Some? <==> HostWinner(b, |b|, pk).Some?
  {
    SomeoneInOther(s, a, t, b, pk, prefix);
    SomeoneInOther(t, b, s, a, pk, prefix);
    hide Winner, HostWinner;
  }

  lemma SomeoneInOther(s: R.Store, a: seq<CR>, t: R.Store, b: seq<CR>, pk: Key, prefix: string)
    requires Lists(s, a) && Lists(t, b) && (SameFleet(s, t) || SameFleet(t, s))
    ensures Winner(a, |a|, pk, prefix).Some? ==> Winner(b, |b|, pk, prefix).Some?
    ensures HostWinner(a, |a|, pk).Some? ==> HostWinner(b, |b|, pk).Some?
  {
    hide Desired, PrefixOf, KeyOf, Winner, HostWinner, Claims;
    if Winner(a, |a|, pk, prefix).Some? {
      var i := WinnerIs(a, |a|, pk, prefix);
      var j := Counterpart(s, a, t, b, i, pk);
      SomeoneWins(b, |b|, j, pk);
    }
    if HostWinner(a, |a|, pk).Some? {
      var i := HostWinnerIs(a, |a|, pk);
      var j := Counterpart(s, a, t, b, i, pk);
      SomeoneWins(b, |b|, j, pk);
    }
  }

  lemma Counterpart(s: R.Store, a: seq<CR>, t: R.Store, b: seq<CR>, i: nat, pk: Key) returns (j: nat)
    requires Lists(s, a) && Lists(t, b) && (SameFleet(s, t) || SameFleet(t, s)) && i < |a| && Claims(a[i], pk)
    ensures j < |b| && Claims(b[j], pk) && PrefixOf(b[j]) == PrefixOf(a[i])
    ensures b[j].spec.host == a[i].spec.host && b[j].name == a[i].name
  {
    var k := KeyOf(a[i]);
    var m :| 0 <= m < |b| && KeyOf(b[m]) == k;
    j := m;
    assert s.crs[k] == a[i] && t.crs[k] == b[j];
    if SameFleet(s, t) {
      SameClaims(a[i], b[j]);
    } else {
      SameClaims(b[j], a[i]);
    }
  }

  // With the same winners, whatever is claimed is where it was.
  lemma ClaimsKept(s: R.Store, t: R.Store, second: seq<CR>, third: seq<CR>, k: Key, pk: Key)
    requires SameWinners(second, third) && Lists(s, third) && k in s.crs && Claims(s.crs[k], pk)
    requires Won(s.proxies, second, |second|) && Won(t.proxies, third, |third|)
    ensures var u := s.crs[k];
            && pk in s.proxies && pk in t.proxies
            && Lookup(s.proxies[pk].routes, PrefixOf(u)).Some?
            && Lookup(t.proxies[pk].routes, PrefixOf(u)) == Lookup(s.proxies[pk].routes, PrefixOf(u))
            && (u.spec.host != "" ==> t.proxies[pk].fqdn == s.proxies[pk].fqdn)
  {
    var i :| 0 <= i < |third| && KeyOf(third[i]) == k;
    var prefix := PrefixOf(s.crs[k]);
    SomeoneWins(third, |third|, i, pk);
    assert WonPrefix(s.proxies, second, |second|, pk, prefix) && WonPrefix(t.proxies, third, |third|, pk, prefix);
    assert WonHost(s.proxies, second, |second|, pk) && WonHost(t.proxies, third, |third|, pk);
    hide Winner, HostWinner, Claims, PrefixOf, KeyOf, Lookup, Won;
  }

  lemma RouteKept(s: R.Store, t: R.Store, second: seq<CR>, third: seq<CR>, pk: Key, r: nat)
    requires pk in s.proxies && pk in t.proxies && HandedOver(s, pk, s.proxies[pk], t.proxies[pk])
    requires SameWinners(second, third) && Lists(s, third)
    requires Won(s.proxies, second, |second|) && Won(t.proxies, third, |third|)
    requires r < |s.proxies[pk].routes|
    ensures t.proxies[pk].routes[r] == s.proxies[pk].routes[r]
  {
    var p, q := s.proxies[pk], t.proxies[pk];
    var prefix := p.routes[r].prefix;
    SameFirstRoute(p.routes, q.routes, prefix);
    if k :| k in s.crs && Claims(s.crs[k], pk) && PrefixOf(s.crs[k]) == prefix {
      ClaimsKept(s, t, second, third, k, pk);
    }
    hide FirstRoute, Won, SameWinners, Lists, Claims, PrefixOf;
  }

  lemma ProxyKept(s: R.Store, t: R.Store, second: seq<CR>, third: seq<CR>, pk: Key)
    requires OnlyHandsOver(s, t) && pk in s.proxies && SameWinners(second, third) && Lists(s, third)
    requires Won(s.proxies, second, |second|) && Won(t.proxies, third, |third|)
    ensures t.proxies[pk] == s.proxies[pk]
  {
    var p, q := s.proxies[pk], t.proxies[pk];
    assert HandedOver(s, pk, p, q);
    if k :| k in s.crs && Claims(s.crs[k], pk) && s.crs[k].spec.host != "" {
      ClaimsKept(s, t, second, third, k, pk);
    }
    assert q.owners == p.owners && q.rv == p.rv && |q.routes| == |p.routes| && q.fqdn == p.fqdn;
    hide Won, SameWinners, Lists, Claims, HandedOver;
    forall r | 0 <= r < |p.routes| ensures q.routes[r] == p.routes[r] {
      RouteKept(s, t, second, third, pk, r);
    }
    assert q.routes == p.routes;
  }

  // The same store, won by two listings: the same winners.
  lemma SameStoreSameWinners(s: R.Store, proxies: map<Key, Proxy>, a: seq<CR>, t: R.Store, b: seq<CR>)
    requires Lists(s, a) && Lists(t, b) && SameFleet(s, t)
    requires Won(proxies, a, |a|) && Won(proxies, b, |b|)
    ensures SameWinners(a, b)
  {
    hide Winner, HostWinner, Lookup, Lists, SameFleet;
    forall pk, prefix ensures Winner(a, |a|, pk, prefix) == Winner(b, |b|, pk, prefix) {
      SomeoneInBoth(s, a, t, b, pk, prefix);
      assert WonPrefix(proxies, a, |a|, pk, prefix) && WonPrefix(proxies, b, |b|, pk, prefix);
      var v, w := Winner(a, |a|, pk, prefix), Winner(b, |b|, pk, prefix);
      if v.Some? && ServiceName(v.value) == ServiceName(w.value) {
        ServiceNameInjective(v.value, w.value);
      }
    }
    forall pk ensures HostWinner(a, |a|, pk) == HostWinner(b, |b|, pk) {
      SomeoneInBoth(s, a, t, b, pk, "");
      assert WonHost(proxies, a, |a|, pk) && WonHost(proxies, b, |b|, pk);
    }
  }

  lemma IdleIffSameWinners(s1: R.Store, second: seq<CR>, s2: R.Store, third: seq<CR>, s3: R.Store)
    requires Lists(s1, second) && Lists(s2, third) && SameFleet(s1, s2) && OnlyHandsOver(s2, s3)
    requires Won(s2.proxies, second, |second|) && Won(s3.proxies, third, |third|)
    ensures s3 == s2 <==> SameWinners(second, third)
  {
    hide SameFleet, Lists, Won, SameWinners, HandedOver;
    if s3 == s2 {
      SameStoreSameWinners(s1, s2.proxies, second, s2, third);
    }
    if SameWinners(second, third) {
      forall pk | pk in s2.proxies ensures s3.proxies[pk] == s2.proxies[pk] {
        ProxyKept(s2, s3, second, third, pk);
      }
      assert s3.proxies == s2.proxies;
    }
  }

  lemma WholeSweep(s: R.Store, items: seq<CR>)
    ensures R.Sweep(s, items[..|items|]) == R.Sweep(s, items)
  {
    hide R.Sweep;
    assert items[..|items|] == items;
  }

  lemma ClaimingMeans(s: R.Store, t: R.Store, items: seq<CR>)
    requires Fleet(s) && Claiming(s, t, items, |items|)
    ensures Fleet(t) && SameFleet(s, t) && EveryoneJoined(t) && Won(t.proxies, items, |items|)
  {
    NobodyLeft(s, t);
    hide Fleet, SameFleet, SameStayers, Won, EveryoneJoined;
  }

  lemma ThirdClaims(s2: R.Store, third: seq<CR>, s3: R.Store)
    requires Enrolled(s2) && Lists(s2, third) && s3 == R.Sweep(s2, third)
    ensures OnlyHandsOver(s2, s3) && Won(s3.proxies, third, |third|)
  {
    assert Fleet(s2) && EveryoneJoined(s2);
    WholeSweep(s2, third);
    hide *;
    RepeatSweep(s2, third, |third|);
    LaterSweep(s2, third, |third|, s3);
    ClaimingMeans(s2, s3, third);
  }

  // Whatever the specs, a third sweep changes nothing but who holds a contested
  // prefix or host, and it changes nothing at all exactly when every claim goes
  // to the same resource as in the second, as it does when the order is the same.
  lemma ThirdSweep(s: R.Store, first: seq<CR>, s1: R.Store, second: seq<CR>, s2: R.Store, third: seq<CR>, s3: R.Store)
    requires Population(s) && Lists(s, first) && s1 == R.Sweep(s, first)
    requires Lists(s1, second) && s2 == R.Sweep(s1, second)
    requires Lists(s2, third) && s3 == R.Sweep(s2, third)
    ensures OnlyHandsOver(s2, s3) && Won(s3.proxies, third, |third|)
    ensures s3 == s2 <==> SameWinners(second, third)
  {
    hide *;
    FullSweeps(s, first, s1, second, s2);
    ClaimingMeans(s1, s2, second);
    TwoSweepsEnroll(s1, second, s2);
    ThirdClaims(s2, third, s3);
    IdleIffSameWinners(s1, second, s2, third, s3);
  }

  // Listed in the same order, the same resources win.
  lemma {:induction false} SameOrderSameWinners(a: seq<CR>, b: seq<CR>, n: nat, pk: Key, prefix: string)
    requires n <= |a| == |b|
    requires forall i :: 0 <= i < n ==> SameMember(a[i], b[i])
    ensures Winner(a, n, pk, prefix) == Winner(b, n, pk, prefix) && HostWinner(a, n, pk) == HostWinner(b, n, pk)
  {
    if n > 0 {
      SameClaims(a[n - 1], b[n - 1]);
      SameOrderSameWinners(a, b, n - 1, pk, prefix);
      hide Desired, PrefixOf;
    }
  }

  // One reconcile settles a resource with a route exactly when it finds its proxy
  // already there, or carries the finalizer already; so one sweep is not enough.
  lemma OneReconcileSettlesIff(s: R.Store, k: Key)
    requires Population(s) && k in s.crs && !s.crs[k].deleting
    ensures Settled(R.Reconcile(s, s.crs[k]).store, k) <==>
              !Registers(s.crs[k]) || Desired(s.crs[k]) in s.proxies || FINALIZER in s.crs[k].finalizers
  {
    var u := s.crs[k];
    FirstReconcileJoins(s, k);
    if Registers(u) {
      MemberReconcile(s, k);
      RegisterJoins(s.checked, R.LeaveOld(s.checked, s.proxies, u), u);
    } else {
      QuietReconcile(s, k);
      RegistersSame(u, Mark(u));
    }
    hide Population, Joined, R.Reconcile, R.Register, R.LeaveOld, Final, Mark, OwnedBy, VirtualHostName, Decimal;
  }

  // Two resources that want the same prefix of the same proxy do not settle, in
  // whatever order the second sweep lists them.
  lemma RivalsNeverSettle(s: R.Store, a: CR, b: CR, s1: R.Store, second: seq<CR>, s2: R.Store)
    requires Population(s) && Lists(s, [a, b]) && !a.deleting && !b.deleting
    requires Registers(a) && b.spec == a.spec && b.ns == a.ns && a.spec.host != ""
    requires s1 == R.Sweep(s, [a, b]) && Lists(s1, second) && s2 == R.Sweep(s1, second)
    ensures !Converged(s2)
  {
    RivalsClash(s, a, b);
    hide *;
    FullSweeps(s, [a, b], s1, second, s2);
    ConvergedIff(s1, second, s2);
    SweptFleet(s, s1, [a, b]);
    CompatibleStays(s, s1);
  }

  lemma SweptFleet(s: R.Store, t: R.Store, items: seq<CR>)
    requires Swept(s, t, items, |items|)
    ensures SameStayers(s, t)
  {
  }

  lemma RivalsClash(s: R.Store, a: CR, b: CR)
    requires Lists(s, [a, b]) && !a.deleting && !b.deleting
    requires Registers(a) && b.spec == a.spec && b.ns == a.ns && a.spec.host != ""
    ensures !AllCompatible(s)
  {
    assert [a, b][0] == a && [a, b][1] == b;
    assert KeyOf(a) != KeyOf(b) && !Compatible(a, b);
    assert s.crs[KeyOf(a)] == a && s.crs[KeyOf(b)] == b;
  }
}
