/** What registration, moves and cleanup do to the other tenants of a proxy:
    registration and cleanup undo each other, a move leaves every other owner and
    route alone, and no list ever gains a duplicate. */
module ProxySharing {
  import opened Objects
  import opened ProxyLists
  import R = Reconciler

  // Proxies compared by what they contain, whatever version they are at.
  function Contents(proxies: map<Key, Proxy>): map<Key, Proxy> {
    map k | k in proxies :: proxies[k].(rv := 0)
  }

  // ---- Registration undone by cleanup ----

  // A target proxy that registration extends without overwriting anything.
  ghost predicate Undoable(proxies: map<Key, Proxy>, u: CR) {
    Desired(u) in proxies ==>
      var p := proxies[Desired(u)];
      && (p.owners != [] || p.routes != [])
      && (u.spec.host == "" || u.spec.host == p.fqdn)
      && !OwnedBy(p.owners, u.uid)
      && !Routed(p.routes, PrefixOf(u))
  }

  lemma StripAfterMerge(p: Proxy, u: CR)
    requires u.ann.proxy == ""
    requires ProxyName(u) != ""
    ensures R.Strip(R.Merge(p, u), u.uid, PrefixOf(u)) ==
            p.(owners := WithoutOwner(p.owners, u.uid),
               routes := WithoutRoute(p.routes, PrefixOf(u)),
               fqdn := if u.spec.host != "" then u.spec.host else p.fqdn)
  {
    WithoutOwnerAfterAdding(p.owners, SharedOwner(u));
    WithoutRouteAfterUpsert(p.routes, RouteOf(u));
  }

  lemma StripNewProxy(u: CR)
    ensures var p := R.Strip(R.NewProxy(u), u.uid, PrefixOf(u));
            p.owners == [] && p.routes == []
  {
    var o, r := SharedOwner(u), RouteOf(u);
    assert WithoutOwner([o], u.uid) == WithoutOwner([o][..0], u.uid);
    assert WithoutRoute([r], r.prefix) == WithoutRoute([r][..0], r.prefix);
    assert PrefixOf(u) != "";
  }

  // The content of a proxy given back by a merge and a strip.
  lemma MergeUndone(p: Proxy, u: CR)
    requires u.ann.proxy == "" && ProxyName(u) != ""
    ensures R.Strip(R.Merge(p, u), u.uid, PrefixOf(u)) == p <==>
            && (u.spec.host == "" || u.spec.host == p.fqdn)
            && !OwnedBy(p.owners, u.uid)
            && !Routed(p.routes, PrefixOf(u))
  {
    StripAfterMerge(p, u);
    WithoutOwnerAbsent(p.owners, u.uid);
    WithoutRouteAbsent(p.routes, PrefixOf(u));
  }

  // Registering and leaving amount to one strip of one merge.
  lemma DetachAfterRegister(checked: bool, proxies: map<Key, Proxy>, u: CR) returns (w: Proxy)
    requires Desired(u) in proxies
    ensures var k := Desired(u);
            var q := R.Strip(R.Merge(proxies[k], u), u.uid, PrefixOf(u));
            && R.Detach(checked, R.Register(checked, proxies, u), k, u.uid, PrefixOf(u)) ==
                 (if q.owners == [] && q.routes == [] then proxies - {k} else proxies[k := w])
            && w.(rv := 0) == q.(rv := 0)
            && (!checked ==> w == q)
  {
    var k := Desired(u);
    var m := R.Bumped(checked, proxies[k], R.Merge(proxies[k], u));
    var mid := proxies[k := m];
    assert R.Register(checked, proxies, u) == mid;
    w := R.Bumped(checked, m, R.Strip(m, u.uid, PrefixOf(u)));
    assert mid - {k} == proxies - {k};
    assert mid[k := w] == proxies[k := w];
  }

  lemma DetachAfterCreate(checked: bool, proxies: map<Key, Proxy>, u: CR)
    requires Desired(u) !in proxies
    ensures R.Detach(checked, R.Register(checked, proxies, u), Desired(u), u.uid, PrefixOf(u)) == proxies
  {
    StripNewProxy(u);
    var mid := proxies[Desired(u) := R.NewProxy(u)];
    assert mid - {Desired(u)} == proxies;
  }

  lemma LosingOne(before: map<Key, Proxy>, k: Key)
    requires k in before
    ensures Contents(before - {k}) != Contents(before)
  {
    assert k in Contents(before) && k !in Contents(before - {k});
  }

  lemma ChangingOne(before: map<Key, Proxy>, k: Key, w: Proxy)
    requires k in before
    ensures Contents(before[k := w]) == Contents(before) <==> w.(rv := 0) == before[k].(rv := 0)
    ensures before[k := w] == before <==> w == before[k]
  {
    var after := before[k := w];
    assert after[k] == w;
    if w.(rv := 0) == before[k].(rv := 0) {
      assert Contents(after) == Contents(before);
    } else {
      assert Contents(after)[k] != Contents(before)[k];
    }
    if w == before[k] {
      assert after == before;
    }
  }

  // ensureServiceAndProxy then cleanupProxyForCR gives every proxy back, in
  // order, exactly when registration overwrote nothing.
  lemma RegisterThenCleanup(s: R.Store, u: CR)
    requires u.ann.proxy == "" && ProxyName(u) != "" && u.spec.ruta != ""
    ensures var (s', u') := R.EnsureAll(s, u);
            var after := R.CleanupProxy(s.checked, s'.proxies, u');
            && (Contents(after) == Contents(s.proxies) <==> Undoable(s.proxies, u))
            && (!s.checked ==> (after == s.proxies <==> Undoable(s.proxies, u)))
  {
    RegisteredRecord(s, u);
    var k := Desired(u);
    hide R.EnsureAll, R.Register, R.Detach, Contents, OwnedBy, Routed;
    if k !in s.proxies {
      DetachAfterCreate(s.checked, s.proxies, u);
    } else {
      var w := DetachAfterRegister(s.checked, s.proxies, u);
      MergeUndone(s.proxies[k], u);
      LosingOne(s.proxies, k);
      ChangingOne(s.proxies, k, w);
    }
  }

  // It is not when the target has nobody left in it: cleanup deletes it.
  lemma EmptyTargetNotRestored(s: R.Store, u: CR)
    requires u.ann.proxy == "" && ProxyName(u) != "" && u.spec.ruta != ""
    requires s.proxies == map[Desired(u) := Proxy([], [], u.spec.host, 0)]
    ensures var (s', u') := R.EnsureAll(s, u);
            Contents(R.CleanupProxy(s.checked, s'.proxies, u')) != Contents(s.proxies)
  {
    RegisterThenCleanup(s, u);
    hide R.EnsureAll, R.CleanupProxy, Contents;
  }

  lemma RegisteredRecord(s: R.Store, u: CR)
    requires u.ann.proxy == "" && ProxyName(u) != "" && u.spec.ruta != ""
    ensures var (s', u') := R.EnsureAll(s, u);
            && s'.proxies == R.Register(s.checked, s.proxies, u)
            && R.CleanupProxy(s.checked, s'.proxies, u') ==
                 R.Detach(s.checked, s'.proxies, Desired(u), u.uid, PrefixOf(u))
  {
    hide R.Register, R.Detach, R.EnsureService;
  }

  // ---- A move leaves everyone else alone ----

  // The proxies a reconcile of `u` may touch.
  predicate Touched(u: CR, k: Key) {
    k == Desired(u) || (u.ann.proxy != "" && k == Recorded(u))
  }

  // What a proxy holds for tenants other than `u`: owners, and routes under
  // neither the recorded nor the desired prefix, both in order.
  function OtherOwners(p: Proxy, u: CR): seq<Owner> {
    WithoutOwner(p.owners, u.uid)
  }

  function OtherRoutes(p: Proxy, u: CR): seq<Route> {
    WithoutRoute(WithoutRoute(p.routes, u.ann.route), PrefixOf(u))
  }

  lemma StripKeepsOthers(p: Proxy, u: CR)
    ensures var q := R.Strip(p, u.uid, u.ann.route);
            OtherOwners(q, u) == OtherOwners(p, u) && OtherRoutes(q, u) == OtherRoutes(p, u)
  {
    WithoutOwnerTwice(p.owners, u.uid);
    WithoutRouteTwice(p.routes, u.ann.route);
  }

  lemma MergeKeepsOthers(p: Proxy, u: CR)
    ensures var q := R.Merge(p, u);
            OtherOwners(q, u) == OtherOwners(p, u) && OtherRoutes(q, u) == OtherRoutes(p, u)
  {
    WithoutOwnerAfterAdding(p.owners, SharedOwner(u));
    var rts := if R.Renamed(u) then WithoutRoute(p.routes, u.ann.route) else p.routes;
    WithoutRouteCommutes(Upsert(rts, RouteOf(u)), u.ann.route, PrefixOf(u));
    WithoutRouteAfterUpsert(rts, RouteOf(u));
    WithoutRouteCommutes(rts, PrefixOf(u), u.ann.route);
    WithoutRouteTwice(p.routes, u.ann.route);
  }

  // What leaving the old proxy and joining the new one do, separately.
  lemma LeaveConservesOthers(checked: bool, proxies: map<Key, Proxy>, u: CR)
    ensures var left := R.LeaveOld(checked, proxies, u);
            && (forall k :: k != Recorded(u) || k == Desired(u) ==>
                  (k in left <==> k in proxies) && (k in proxies ==> left[k] == proxies[k]))
            && (forall k :: k in left ==>
                  && k in proxies
                  && OtherOwners(left[k], u) == OtherOwners(proxies[k], u)
                  && OtherRoutes(left[k], u) == OtherRoutes(proxies[k], u)
                  && left[k].fqdn == proxies[k].fqdn)
  {
    if u.ann.proxy != "" && u.ann.proxy != ProxyName(u) && Recorded(u) in proxies {
      StripKeepsOthers(proxies[Recorded(u)], u);
    }
  }

  lemma JoinConservesOthers(checked: bool, proxies: map<Key, Proxy>, u: CR)
    ensures var after := R.Register(checked, proxies, u);
            && Desired(u) in after
            && (forall k :: k != Desired(u) ==>
                  (k in after <==> k in proxies) && (k in proxies ==> after[k] == proxies[k]))
            && (forall k :: k in proxies ==>
                  && OtherOwners(after[k], u) == OtherOwners(proxies[k], u)
                  && OtherRoutes(after[k], u) == OtherRoutes(proxies[k], u))
  {
    if Desired(u) in proxies {
      MergeKeepsOthers(proxies[Desired(u)], u);
    }
  }

  // One registration touches at most the recorded and the desired proxy and
  // keeps every other tenant there, in order.
  lemma MoveConservesOthers(checked: bool, proxies: map<Key, Proxy>, u: CR)
    requires u.spec.ruta != ""
    ensures var after := R.EnsureProxy(checked, proxies, u);
            && Desired(u) in after
            && (forall k :: !Touched(u, k) ==>
                  (k in after <==> k in proxies) && (k in proxies ==> after[k] == proxies[k]))
            && (forall k :: k in proxies && k in after ==>
                  && OtherOwners(after[k], u) == OtherOwners(proxies[k], u)
                  && OtherRoutes(after[k], u) == OtherRoutes(proxies[k], u)
                  && (k != Desired(u) ==> after[k].fqdn == proxies[k].fqdn))
  {
    LeaveConservesOthers(checked, proxies, u);
    JoinConservesOthers(checked, R.LeaveOld(checked, proxies, u), u);
  }

  // A resource that moves away deletes its old proxy exactly when no other
  // owner and no route under another prefix is left in it.
  lemma OldProxyDeletedWhenEmpty(checked: bool, proxies: map<Key, Proxy>, u: CR)
    requires u.spec.ruta != ""
    requires u.ann.proxy != "" && u.ann.proxy != ProxyName(u) && Recorded(u) in proxies
    ensures Recorded(u) !in R.EnsureProxy(checked, proxies, u) <==>
            && (forall o :: o in proxies[Recorded(u)].owners ==> o.uid == u.uid)
            && (forall r :: r in proxies[Recorded(u)].routes ==> u.ann.route != "" && r.prefix == u.ann.route)
  {
    var p := proxies[Recorded(u)];
    var q := R.Strip(p, u.uid, u.ann.route);
    WithoutOwnerMembers(p.owners, u.uid);
    WithoutRouteMembers(p.routes, u.ann.route);
    assert q.owners != [] ==> q.owners[0] in q.owners;
    assert q.routes != [] ==> q.routes[0] in q.routes;
  }

  // Cleanup touches the recorded proxy only, on the same terms.
  lemma CleanupConservesOthers(checked: bool, proxies: map<Key, Proxy>, u: CR)
    ensures var after := R.CleanupProxy(checked, proxies, u);
            && (forall k :: k != Recorded(u) ==>
                  (k in after <==> k in proxies) && (k in proxies ==> after[k] == proxies[k]))
            && (forall k :: k in after ==>
                  && k in proxies
                  && OtherOwners(after[k], u) == OtherOwners(proxies[k], u)
                  && WithoutRoute(after[k].routes, u.ann.route) == WithoutRoute(proxies[k].routes, u.ann.route)
                  && after[k].fqdn == proxies[k].fqdn)
  {
    if u.ann.proxy != "" && Recorded(u) in proxies {
      StripKeepsOthers(proxies[Recorded(u)], u);
      WithoutRouteTwice(proxies[Recorded(u)].routes, u.ann.route);
    }
  }

  // ---- No duplicates ----

  ghost predicate Tidy(proxies: map<Key, Proxy>) {
    forall k :: k in proxies ==> DistinctOwners(proxies[k].owners) && DistinctPrefixes(proxies[k].routes)
  }

  lemma DetachKeepsTidy(checked: bool, proxies: map<Key, Proxy>, k: Key, uid: string, route: string)
    requires Tidy(proxies)
    ensures Tidy(R.Detach(checked, proxies, k, uid, route))
  {
    if k in proxies {
      WithoutOwnerKeepsDistinct(proxies[k].owners, uid);
      WithoutRouteKeepsDistinct(proxies[k].routes, route);
    }
  }

  lemma MergeKeepsTidy(p: Proxy, u: CR)
    requires DistinctOwners(p.owners) && DistinctPrefixes(p.routes)
    ensures DistinctOwners(R.Merge(p, u).owners) && DistinctPrefixes(R.Merge(p, u).routes)
  {
    WithoutRouteKeepsDistinct(p.routes, u.ann.route);
    UpsertKeepsDistinct(if R.Renamed(u) then WithoutRoute(p.routes, u.ann.route) else p.routes, RouteOf(u));
  }

  lemma CrWriteOnly(s: R.Store, u: CR)
    ensures var t := R.UpdateCr(s, u).store;
            t == s.(crs := t.crs)
    ensures var t := R.UpdateStatusOrAll(s, u).store;
            t == s.(crs := t.crs)
  {
  }

  lemma EnsureAllProxies(s: R.Store, u: CR)
    ensures R.EnsureAll(s, u).0.proxies == R.EnsureProxy(s.checked, s.proxies, u)
  {
    hide R.Register, R.LeaveOld, R.EnsureService, R.Indexed, R.UpdateStatusOrAll;
    if u.spec.ruta != "" {
      var left := R.LeaveOld(s.checked, s.proxies, u);
      var s1 := s.(services := R.EnsureService(s.services, u), proxies := R.Register(s.checked, left, u));
      CrWriteOnly(s1, R.Indexed(u, Desired(u) in left));
      hide R.UpdateCr;
    }
  }

  // A reconcile changes proxies through registration or cleanup only.
  lemma ReconcileProxies(s: R.Store, u: CR)
    ensures R.Reconcile(s, u).store.proxies ==
            if u.deleting then R.CleanupProxy(s.checked, s.proxies, u)
            else if Multiplicador(u.spec) <= 0 then s.proxies
            else R.EnsureProxy(s.checked, s.proxies, u)
  {
    if u.deleting {
      assert R.Reconcile(s, u) == R.Finalize(s, u);
    } else if Multiplicador(u.spec) > 0 {
      ApplyProxies(s, u);
    } else {
      CrWriteOnly(s, R.Invalidated(u));
    }
  }

  lemma ApplyProxies(s: R.Store, u: CR)
    ensures R.Apply(s, u).store.proxies == R.EnsureProxy(s.checked, s.proxies, u)
  {
    var u1 := R.Validated(u);
    CrWriteOnly(s, u1);
    var s1 := R.UpdateCr(s, u1).store;
    var s2 := s1.(deployments := R.EnsureDeployment(s1.deployments, u));
    if DeploymentKey(u) !in s.deployments {
      var u2 := u1.(status := ReadyStatus(u));
      CrWriteOnly(s2, u2);
      EnsureAllProxies(R.UpdateStatusOrAll(s2, u2).store, u2);
      SameRegistration(s.checked, s.proxies, u, u2);
    } else {
      EnsureAllProxies(s2, u1);
      SameRegistration(s.checked, s.proxies, u, u1);
      var (s3, u2) := R.EnsureAll(s2, u1);
      CrWriteOnly(s3, u2.(status := ReadyStatus(u)));
    }
  }

  // Registration depends on a resource's identity, spec and index entry only.
  lemma SameRegistration(checked: bool, proxies: map<Key, Proxy>, u: CR, v: CR)
    requires u.ns == v.ns && u.name == v.name && u.uid == v.uid && u.spec == v.spec
    requires u.ann.proxy == v.ann.proxy && u.ann.route == v.ann.route
    ensures R.EnsureProxy(checked, proxies, u) == R.EnsureProxy(checked, proxies, v)
  {
    assert R.LeaveOld(checked, proxies, u) == R.LeaveOld(checked, proxies, v);
    SameRegister(checked, R.LeaveOld(checked, proxies, u), u, v);
    hide R.LeaveOld, R.Register;
  }

  lemma SameRegister(checked: bool, proxies: map<Key, Proxy>, u: CR, v: CR)
    requires u.ns == v.ns && u.name == v.name && u.uid == v.uid && u.spec == v.spec
    requires u.ann.proxy == v.ann.proxy && u.ann.route == v.ann.route
    ensures R.Register(checked, proxies, u) == R.Register(checked, proxies, v)
  {
    if Desired(u) in proxies {
      assert R.Merge(proxies[Desired(u)], u) == R.Merge(proxies[Desired(u)], v);
    }
  }

  lemma EnsureKeepsTidy(checked: bool, proxies: map<Key, Proxy>, u: CR)
    requires Tidy(proxies)
    ensures Tidy(R.EnsureProxy(checked, proxies, u))
  {
    DetachKeepsTidy(checked, proxies, Recorded(u), u.uid, u.ann.route);
    var left := R.LeaveOld(checked, proxies, u);
    if Desired(u) in left {
      MergeKeepsTidy(left[Desired(u)], u);
    }
  }

  // Create, merge, rename, move and cleanup all keep owners pairwise distinct
  // by uid and routes pairwise distinct by prefix.
  lemma ReconcileKeepsTidy(s: R.Store, u: CR)
    requires Tidy(s.proxies)
    ensures Tidy(R.Reconcile(s, u).store.proxies)
  {
    ReconcileProxies(s, u);
    if u.deleting {
      DetachKeepsTidy(s.checked, s.proxies, Recorded(u), u.uid, u.ann.route);
    } else if Multiplicador(u.spec) > 0 {
      EnsureKeepsTidy(s.checked, s.proxies, u);
    }
  }
}
