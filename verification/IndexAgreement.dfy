/** Whole runs of resource creations, spec edits, deletions and reconciles.  The
    two annotations of a live resource are an index into the proxies: they name
    the only proxy that has its owner entry, and the only prefix under which its
    service is routed to, but for routes that were left over when it was created. */
module IndexAgreement {
  import opened Objects
  import opened ProxyLists
  import R = Reconciler
  import opened ProxySharing
  import opened DirectWrites

  // A place for a route: a proxy and a prefix in it.
  type Place = (Key, string)

  // The cluster, the uids ever given out, and what cleanup has already cleared:
  // the uids it removed for good, and the names not taken again since.  For each
  // name, `leftover` has the places from which its service was routed to when
  // the name was last taken.
  datatype World = World(s: R.Store, usedUids: set<string>, clearedUids: set<string>, clearedNames: set<Key>,
                         leftover: map<Key, set<Place>>)

  datatype Event = Create(cr: CR) | Edit(key: Key, spec: Spec) | Delete(key: Key) | Reconcile(key: Key)
                 | Others(key: Key, finalizers: seq<string>)

  // An owner entry, respectively a route, of some proxy.
  ghost predicate Owns(proxies: map<Key, Proxy>, pk: Key, o: Owner) {
    pk in proxies && o in proxies[pk].owners
  }

  ghost predicate Serves(proxies: map<Key, Proxy>, pk: Key, r: Route) {
    pk in proxies && r in proxies[pk].routes
  }

  // Whatever routes there are in the namespace to the service of `name`, they are
  // in these places.
  ghost predicate RoutedWithin(proxies: map<Key, Proxy>, ns: string, name: string, places: set<Place>) {
    forall pk, r :: Serves(proxies, pk, r) && pk.ns == ns && r.service == ServiceName(name) ==>
      (pk, r.prefix) in places
  }

  // The places from which the service of `name` is routed to.
  function Places(proxies: map<Key, Proxy>, ns: string, name: string): set<Place> {
    set pk, r | pk in proxies && r in proxies[pk].routes && pk.ns == ns && r.service == ServiceName(name) ::
      (pk, r.prefix)
  }

  // A newly created resource: named, with a uid never used before; it may come
  // with any annotations, as a manifest saved from the cluster does.
  ghost predicate Fresh(w: World, cr: CR) {
    && cr.name != "" && !cr.deleting
    && KeyOf(cr) !in w.s.crs && cr.uid !in w.usedUids
  }

  ghost predicate Enabled(w: World, e: Event) {
    match e
    case Create(cr) => Fresh(w, cr)
    case Edit(k, _) => k in w.s.crs
    case Delete(k) => k in w.s.crs
    case Reconcile(k) => k in w.s.crs
    // other controllers add and remove their own finalizers
    case Others(k, fs) => k in w.s.crs && (FINALIZER in fs <==> FINALIZER in w.s.crs[k].finalizers)
  }

  function Act(w: World, e: Event): World
    requires e.Create? || e.key in w.s.crs
  {
    match e
    case Create(cr) =>
      w.(s := w.s.(crs := w.s.crs[KeyOf(cr) := cr]),
         usedUids := w.usedUids + {cr.uid},
         clearedNames := w.clearedNames - {KeyOf(cr)},
         leftover := w.leftover[KeyOf(cr) := Places(w.s.proxies, NsOf(cr), cr.name)])
    case Edit(k, spec) =>
      w.(s := w.s.(crs := w.s.crs[k := w.s.crs[k].(spec := spec)]))
    case Delete(k) =>
      // a resource without finalizers disappears at once
      if w.s.crs[k].finalizers == [] then w.(s := w.s.(crs := w.s.crs - {k}))
      else w.(s := w.s.(crs := w.s.crs[k := w.s.crs[k].(deleting := true)]))
    case Others(k, fs) =>
      if w.s.crs[k].deleting && fs == [] then w.(s := w.s.(crs := w.s.crs - {k}))
      else w.(s := w.s.(crs := w.s.crs[k := w.s.crs[k].(finalizers := fs)]))
    case Reconcile(k) =>
      var u := w.s.crs[k];
      var w' := w.(s := R.Reconcile(w.s, u).store);
      if u.deleting && FINALIZER in u.finalizers
      then w'.(clearedUids := w.clearedUids + {u.uid}, clearedNames := w.clearedNames + {k})
      else w'
  }

  ghost predicate Runs(w: World, events: seq<Event>)
    decreases |events|
  {
    |events| > 0 ==> Enabled(w, events[0]) && Runs(Act(w, events[0]), events[1..])
  }

  function After(w: World, events: seq<Event>): World
    requires Runs(w, events)
    decreases |events|
  {
    if |events| == 0 then w else After(Act(w, events[0]), events[1..])
  }

  const EMPTY: World :=
    World(R.Store(false, map[], map[], map[], map[]), {}, {}, {}, map[])

  // ---- The index ----

  // A resource owns no proxy but the one its annotations name, and is routed to
  // from no place but the one they name and the given others.
  ghost predicate Agrees(cr: CR, proxies: map<Key, Proxy>, others: set<Place>) {
    && (forall pk, o :: Owns(proxies, pk, o) && o.uid == cr.uid ==> pk == Recorded(cr))
    && RoutedWithin(proxies, NsOf(cr), cr.name, others + {(Recorded(cr), cr.ann.route)})
  }

  ghost predicate IndexOk(w: World) {
    forall k :: k in w.s.crs ==> k in w.leftover && Agrees(w.s.crs[k], w.s.proxies, w.leftover[k])
  }

  // Nothing of a cleared uid, and nothing new of a cleared name, is left anywhere.
  ghost predicate ClearedOk(w: World) {
    && (forall pk, o :: Owns(w.s.proxies, pk, o) ==> o.uid !in w.clearedUids)
    && (forall k :: k in w.clearedNames ==>
          k in w.leftover && RoutedWithin(w.s.proxies, k.ns, k.name, w.leftover[k]))
    && (forall k :: k in w.clearedNames && k in w.s.crs ==> w.s.crs[k].deleting)
    && (forall k :: k in w.s.crs && w.s.crs[k].uid in w.clearedUids ==> w.s.crs[k].deleting)
    && w.clearedUids <= w.usedUids
  }

  ghost predicate WellFormed(w: World) {
    && !w.s.checked
    && (forall k :: k in w.s.crs ==>
          KeyOf(w.s.crs[k]) == k && k.name != "" && w.s.crs[k].uid in w.usedUids)
    && (forall j, k :: j in w.s.crs && k in w.s.crs && j != k ==> w.s.crs[j].uid != w.s.crs[k].uid)
    && (forall pk, o :: Owns(w.s.proxies, pk, o) ==> o.uid in w.usedUids)
    && Named(w.s.proxies)
    && Tidy(w.s.proxies)
  }

  ghost predicate Inv(w: World) {
    WellFormed(w) && IndexOk(w) && ClearedOk(w)
  }

  // ---- What registration and cleanup leave in the proxies ----

  lemma DetachMembers(checked: bool, proxies: map<Key, Proxy>, k: Key, uid: string, route: string)
    ensures var after := R.Detach(checked, proxies, k, uid, route);
            && OnlyRemoves(proxies, after)
            && (forall o :: Owns(after, k, o) ==> o.uid != uid)
            && (route != "" ==> forall r :: Serves(after, k, r) ==> r.prefix != route)
  {
    if k in proxies {
      WithoutOwnerMembers(proxies[k].owners, uid);
      WithoutRouteMembers(proxies[k].routes, route);
    }
  }

  ghost predicate OnlyRemoves(before: map<Key, Proxy>, after: map<Key, Proxy>) {
    && (forall pk :: pk in after ==> pk in before)
    && (forall pk, o :: Owns(after, pk, o) ==> Owns(before, pk, o))
    && (forall pk, r :: Serves(after, pk, r) ==> Serves(before, pk, r))
  }

  lemma SameRemoves(proxies: map<Key, Proxy>)
    ensures OnlyRemoves(proxies, proxies)
  {
  }

  lemma MergeMembers(p: Proxy, u: CR)
    ensures forall o :: o in R.Merge(p, u).owners ==> o == SharedOwner(u) || o in p.owners
    ensures forall r :: r in R.Merge(p, u).routes ==>
              r == RouteOf(u) || (r in p.routes && (R.Renamed(u) ==> r.prefix != u.ann.route))
  {
    WithoutRouteMembers(p.routes, u.ann.route);
    UpsertMembers(if R.Renamed(u) then WithoutRoute(p.routes, u.ann.route) else p.routes, RouteOf(u));
  }

  lemma RegisterMembers(checked: bool, proxies: map<Key, Proxy>, u: CR)
    ensures var after := R.Register(checked, proxies, u);
            && (forall pk :: pk in after ==> pk in proxies || pk == Desired(u))
            && (forall pk, o :: Owns(after, pk, o) ==>
                  (pk == Desired(u) && o == SharedOwner(u)) || Owns(proxies, pk, o))
            && (forall pk, r :: Serves(after, pk, r) ==>
                  || (pk == Desired(u) && r == RouteOf(u))
                  || (Serves(proxies, pk, r) && (pk == Desired(u) && R.Renamed(u) ==> r.prefix != u.ann.route)))
  {
    if Desired(u) in proxies {
      MergeMembers(proxies[Desired(u)], u);
    }
  }

  // Where owners and routes come from after a registration: the resource's own
  // entries in its desired proxy, or entries that were there before and that
  // registration had no reason to remove.
  ghost predicate OnlyAdds(before: map<Key, Proxy>, after: map<Key, Proxy>, u: CR) {
    && (forall pk :: pk in after ==> pk in before || pk == Desired(u))
    && (forall pk, o :: Owns(after, pk, o) ==>
          || (pk == Desired(u) && o == SharedOwner(u))
          || (Owns(before, pk, o) && (o.uid == u.uid ==> !Left(u, pk))))
    && (forall pk, r :: Serves(after, pk, r) ==>
          || (pk == Desired(u) && r == RouteOf(u))
          || (Serves(before, pk, r) && (r.prefix == u.ann.route && u.ann.route != "" ==>
                !Left(u, pk) && (pk == Recorded(u) && u.ann.proxy != "" ==> u.ann.route == PrefixOf(u)))))
  }

  // Every proxy has a name, and every route a prefix.
  ghost predicate Named(proxies: map<Key, Proxy>) {
    && (forall pk :: pk in proxies ==> pk.name != "")
    && (forall pk, r :: Serves(proxies, pk, r) ==> r.prefix != "")
  }

  // A proxy the resource moves away from.
  predicate Left(u: CR, pk: Key) {
    u.ann.proxy != "" && u.ann.proxy != ProxyName(u) && pk == Recorded(u)
  }

  lemma EnsureOnlyAdds(checked: bool, proxies: map<Key, Proxy>, u: CR)
    requires u.spec.ruta != ""
    ensures OnlyAdds(proxies, R.EnsureProxy(checked, proxies, u), u)
  {
    DetachMembers(checked, proxies, Recorded(u), u.uid, u.ann.route);
    RegisterMembers(checked, R.LeaveOld(checked, proxies, u), u);
  }

  // ---- Agreement through a registration and through a cleanup ----

  lemma OwnAgreement(before: map<Key, Proxy>, after: map<Key, Proxy>, u: CR, v: CR, others: set<Place>)
    requires Agrees(u, before, others) && OnlyAdds(before, after, u) && Named(before)
    requires ProxyName(u) != ""
    requires v.ns == u.ns && v.name == u.name && v.uid == u.uid
    requires v.ann.proxy == ProxyName(u) && v.ann.route == PrefixOf(u)
    ensures Agrees(v, after, others)
  {
    assert Recorded(v) == Desired(u);
    forall pk, o | Owns(after, pk, o) && o.uid == v.uid ensures pk == Recorded(v) {
    }
    forall pk, r | Serves(after, pk, r) && pk.ns == NsOf(v) && r.service == ServiceName(v.name)
      ensures (pk, r.prefix) in others || (pk == Recorded(v) && r.prefix == v.ann.route)
    {
      if r != RouteOf(u) || pk != Desired(u) {
        assert Serves(before, pk, r);
        assert (pk, r.prefix) in others + {(Recorded(u), u.ann.route)};
      }
    }
  }

  lemma OthersAgreement(before: map<Key, Proxy>, after: map<Key, Proxy>, u: CR, c: CR, others: set<Place>)
    requires Agrees(c, before, others) && OnlyAdds(before, after, u)
    requires c.uid != u.uid && KeyOf(c) != KeyOf(u)
    ensures Agrees(c, after, others)
  {
    OthersRoutes(before, after, u, KeyOf(c), others + {(Recorded(c), c.ann.route)});
    hide RoutedWithin;
  }

  lemma OthersRoutes(before: map<Key, Proxy>, after: map<Key, Proxy>, u: CR, k: Key, places: set<Place>)
    requires RoutedWithin(before, k.ns, k.name, places) && OnlyAdds(before, after, u)
    requires k != KeyOf(u)
    ensures RoutedWithin(after, k.ns, k.name, places)
  {
    if ServiceName(k.name) == ServiceName(u.name) {
      ServiceNameInjective(k.name, u.name);
    }
  }

  lemma FewerRoutes(before: map<Key, Proxy>, after: map<Key, Proxy>, ns: string, name: string, places: set<Place>)
    requires OnlyRemoves(before, after) && RoutedWithin(before, ns, name, places)
    ensures RoutedWithin(after, ns, name, places)
  {
    hide Serves, Owns;
  }

  lemma FewerAgreement(before: map<Key, Proxy>, after: map<Key, Proxy>, c: CR, v: CR, others: set<Place>)
    requires Agrees(c, before, others) && OnlyRemoves(before, after) && SameEntry(c, v)
    ensures Agrees(v, after, others)
  {
    FewerRoutes(before, after, NsOf(c), c.name, others + {(Recorded(c), c.ann.route)});
    hide RoutedWithin;
  }

  // Cleanup leaves nothing of a resource whose annotations agree.
  lemma CleanupClears(checked: bool, proxies: map<Key, Proxy>, u: CR, others: set<Place>)
    requires Agrees(u, proxies, others) && Named(proxies)
    ensures var after := R.CleanupProxy(checked, proxies, u);
            && OnlyRemoves(proxies, after)
            && (forall pk, o :: Owns(after, pk, o) ==> o.uid != u.uid)
            && RoutedWithin(after, NsOf(u), u.name, others)
  {
    DetachMembers(checked, proxies, Recorded(u), u.uid, u.ann.route);
    var after := R.CleanupProxy(checked, proxies, u);
    forall pk, r | Serves(after, pk, r) && pk.ns == NsOf(u) && r.service == ServiceName(u.name)
      ensures (pk, r.prefix) in others
    {
      assert Serves(proxies, pk, r);
      assert (pk, r.prefix) in others + {(Recorded(u), u.ann.route)};
    }
  }

  // ---- Every event keeps the invariant ----

  // A step that rewrites one resource's record and replaces the proxies.
  ghost predicate Rewrites(w: World, w': World, k: Key, v: CR, after: map<Key, Proxy>) {
    && k in w.s.crs
    && w'.s.checked == w.s.checked && w'.s.crs == w.s.crs[k := v] && w'.s.proxies == after
    && w'.usedUids == w.usedUids && w'.clearedUids == w.clearedUids && w'.clearedNames == w.clearedNames
    && w'.leftover == w.leftover
    && KeyOf(v) == k && v.uid == w.s.crs[k].uid && v.deleting == w.s.crs[k].deleting
  }

  lemma ReconcileRewrites(w: World, k: Key)
    requires WellFormed(w) && k in w.s.crs && !w.s.crs[k].deleting
    ensures var u := w.s.crs[k];
            Rewrites(w, Act(w, Reconcile(k)), k, Final(w.s, u).value,
                     if Multiplicador(u.spec) > 0 then R.EnsureProxy(w.s.checked, w.s.proxies, u) else w.s.proxies)
  {
    ReconcileIsDirect(w.s, w.s.crs[k]);
  }

  lemma AddingKeepsWellFormed(w: World, w': World, k: Key, v: CR, after: map<Key, Proxy>)
    requires WellFormed(w) && Rewrites(w, w', k, v, after)
    requires OnlyAdds(w.s.proxies, after, w.s.crs[k]) && Tidy(after)
    requires ProxyName(w.s.crs[k]) != ""
    ensures WellFormed(w')
  {
  }

  lemma AddingKeepsIndex(w: World, w': World, k: Key, v: CR, after: map<Key, Proxy>)
    requires WellFormed(w) && IndexOk(w) && Rewrites(w, w', k, v, after)
    requires OnlyAdds(w.s.proxies, after, w.s.crs[k])
    requires k in w.leftover && Agrees(v, after, w.leftover[k])
    ensures IndexOk(w')
  {
    forall j | j in w.s.crs && j != k ensures Agrees(w.s.crs[j], after, w.leftover[j]) {
      OthersAgreement(w.s.proxies, after, w.s.crs[k], w.s.crs[j], w.leftover[j]);
    }
  }

  lemma AddingKeepsCleared(w: World, w': World, k: Key, v: CR, after: map<Key, Proxy>)
    requires WellFormed(w) && ClearedOk(w) && Rewrites(w, w', k, v, after)
    requires OnlyAdds(w.s.proxies, after, w.s.crs[k])
    requires !w.s.crs[k].deleting
    ensures ClearedOk(w')
  {
    forall j | j in w.clearedNames ensures RoutedWithin(after, j.ns, j.name, w.leftover[j]) {
      OthersRoutes(w.s.proxies, after, w.s.crs[k], j, w.leftover[j]);
    }
  }

  lemma ActiveReconcileKeepsInv(w: World, k: Key)
    requires Inv(w) && k in w.s.crs
    requires var u := w.s.crs[k]; !u.deleting && Multiplicador(u.spec) > 0 && u.spec.ruta != ""
    ensures Inv(Act(w, Reconcile(k)))
  {
    var u := w.s.crs[k];
    var before, after := w.s.proxies, R.EnsureProxy(w.s.checked, w.s.proxies, u);
    var v, w' := Final(w.s, u).value, Act(w, Reconcile(k));
    ReconcileRewrites(w, k);
    EnsureOnlyAdds(w.s.checked, before, u);
    EnsureKeepsTidy(w.s.checked, before, u);
    OwnAgreement(before, after, u, v, w.leftover[k]);
    AddingKeepsWellFormed(w, w', k, v, after);
    AddingKeepsIndex(w, w', k, v, after);
    AddingKeepsCleared(w, w', k, v, after);
  }

  // A step that keeps a resource's identity and index entry, or removes it, and
  // at most takes entries out of the proxies.
  ghost predicate Shrinks(w: World, w': World, k: Key) {
    && k in w.s.crs && w'.s.checked == w.s.checked && w'.usedUids == w.usedUids && w'.leftover == w.leftover
    && OnlyRemoves(w.s.proxies, w'.s.proxies)
    && (forall j :: j in w'.s.crs ==> j in w.s.crs)
    && (forall j :: j in w'.s.crs && j != k ==> w'.s.crs[j] == w.s.crs[j])
    && (k in w'.s.crs ==> SameEntry(w.s.crs[k], w'.s.crs[k]))
  }

  predicate SameEntry(u: CR, v: CR) {
    && v.ns == u.ns && v.name == u.name && v.uid == u.uid
    && v.ann.proxy == u.ann.proxy && v.ann.route == u.ann.route
    && (u.deleting ==> v.deleting)
  }

  lemma FewerOwnersKnown(w: World, w': World)
    requires OnlyRemoves(w.s.proxies, w'.s.proxies) && w'.usedUids == w.usedUids
    requires Named(w.s.proxies) && forall pk, o :: Owns(w.s.proxies, pk, o) ==> o.uid in w.usedUids
    ensures Named(w'.s.proxies) && forall pk, o :: Owns(w'.s.proxies, pk, o) ==> o.uid in w'.usedUids
  {
    hide Owns, Serves;
  }

  lemma ShrinkingKeepsWellFormed(w: World, w': World, k: Key)
    requires WellFormed(w) && Shrinks(w, w', k) && Tidy(w'.s.proxies)
    ensures WellFormed(w')
  {
    hide Tidy, Owns, Serves, Named;
    FewerOwnersKnown(w, w');
    hide OnlyRemoves;
  }

  lemma ShrinkingKeepsIndex(w: World, w': World, k: Key)
    requires WellFormed(w) && IndexOk(w) && Shrinks(w, w', k) && Tidy(w'.s.proxies)
    ensures WellFormed(w') && IndexOk(w')
  {
    hide Tidy, Agrees, OnlyRemoves;
    ShrinkingKeepsWellFormed(w, w', k);
    forall j | j in w'.s.crs ensures j in w.leftover && Agrees(w'.s.crs[j], w'.s.proxies, w.leftover[j]) {
      FewerAgreement(w.s.proxies, w'.s.proxies, w.s.crs[j], w'.s.crs[j], w.leftover[j]);
    }
  }

  lemma ShrinkingKeepsCleared(w: World, w': World, k: Key)
    requires WellFormed(w) && ClearedOk(w) && Shrinks(w, w', k)
    requires w'.clearedUids == w.clearedUids && w'.clearedNames == w.clearedNames
    ensures ClearedOk(w')
  {
    hide RoutedWithin;
    forall j | j in w.clearedNames ensures RoutedWithin(w'.s.proxies, j.ns, j.name, w.leftover[j]) {
      FewerRoutes(w.s.proxies, w'.s.proxies, j.ns, j.name, w.leftover[j]);
    }
  }

  lemma QuietReconcileShrinks(w: World, k: Key)
    requires WellFormed(w) && k in w.s.crs
    requires var u := w.s.crs[k]; !u.deleting && (Multiplicador(u.spec) <= 0 || u.spec.ruta == "")
    ensures var w' := Act(w, Reconcile(k));
            && Shrinks(w, w', k) && w'.s.proxies == w.s.proxies
            && w'.clearedUids == w.clearedUids && w'.clearedNames == w.clearedNames
  {
    ReconcileRewrites(w, k);
    SameRemoves(w.s.proxies);
    hide WellFormed, Act, OnlyRemoves, ReadyStatus, Decimal, Multiplicador;
  }

  lemma QuietReconcileKeepsInv(w: World, k: Key)
    requires Inv(w) && k in w.s.crs
    requires var u := w.s.crs[k]; !u.deleting && (Multiplicador(u.spec) <= 0 || u.spec.ruta == "")
    ensures Inv(Act(w, Reconcile(k)))
  {
    var w' := Act(w, Reconcile(k));
    QuietReconcileShrinks(w, k);
    assert Tidy(w'.s.proxies);
    hide Act, WellFormed, IndexOk, ClearedOk, Shrinks, Tidy;
    ShrinkingKeepsIndex(w, w', k);
    ShrinkingKeepsCleared(w, w', k);
  }

  lemma FinalRewrites(w: World, k: Key)
    requires WellFormed(w) && k in w.s.crs && w.s.crs[k].deleting
    ensures var w' := Act(w, Reconcile(k));
            && w'.s.checked == w.s.checked && w'.usedUids == w.usedUids && w'.leftover == w.leftover
            && w'.s.proxies == R.CleanupProxy(w.s.checked, w.s.proxies, w.s.crs[k])
            && (forall j :: j in w'.s.crs ==> j in w.s.crs)
            && (forall j :: j in w'.s.crs && j != k ==> w'.s.crs[j] == w.s.crs[j])
            && (k in w'.s.crs ==> SameEntry(w.s.crs[k], w'.s.crs[k]))
            && w'.clearedUids <= w.clearedUids + {w.s.crs[k].uid} && w'.clearedNames <= w.clearedNames + {k}
  {
    var u := w.s.crs[k];
    ReconcileIsDirect(w.s, u);
    assert KeyOf(u) == k;
    hide R.CleanupProxy, WellFormed, R.Reconcile, ReadyStatus, R.Validated, R.Indexed, R.Invalidated;
    hide R.EnsureProxy, R.EnsureDeployment, R.EnsureService;
  }

  lemma FinalReconcileShrinks(w: World, k: Key)
    requires Inv(w) && k in w.s.crs && w.s.crs[k].deleting
    ensures var w' := Act(w, Reconcile(k));
            && Shrinks(w, w', k) && Tidy(w'.s.proxies)
            && w'.s.proxies == R.CleanupProxy(w.s.checked, w.s.proxies, w.s.crs[k])
  {
    var u := w.s.crs[k];
    FinalRewrites(w, k);
    assert k in w.leftover && Agrees(u, w.s.proxies, w.leftover[k]) && Named(w.s.proxies) && Tidy(w.s.proxies);
    hide Act, WellFormed, ClearedOk, IndexOk, Tidy, Owns, Serves, Agrees, RoutedWithin;
    CleanupClears(w.s.checked, w.s.proxies, u, w.leftover[k]);
    DetachKeepsTidy(w.s.checked, w.s.proxies, Recorded(u), u.uid, u.ann.route);
    hide R.Detach, OnlyRemoves;
  }

  lemma FinalReconcileKeepsInv(w: World, k: Key)
    requires Inv(w) && k in w.s.crs && w.s.crs[k].deleting
    ensures Inv(Act(w, Reconcile(k)))
  {
    var u := w.s.crs[k];
    var w' := Act(w, Reconcile(k));
    FinalReconcileShrinks(w, k);
    FinalRewrites(w, k);
    assert k in w.leftover && Agrees(u, w.s.proxies, w.leftover[k]) && Named(w.s.proxies) && KeyOf(u) == k;
    hide Act, WellFormed, IndexOk, ClearedOk, Shrinks, Tidy, Agrees, Named, Owns, RoutedWithin, OnlyRemoves;
    ShrinkingKeepsIndex(w, w', k);
    CleanupClears(w.s.checked, w.s.proxies, u, w.leftover[k]);
    ClearingKeepsCleared(w, w', k);
  }

  // Cleanup may add the resource it dealt with to what is cleared.
  lemma ClearingKeepsCleared(w: World, w': World, k: Key)
    requires WellFormed(w) && ClearedOk(w) && Shrinks(w, w', k) && w.s.crs[k].deleting
    requires forall pk, o :: Owns(w'.s.proxies, pk, o) ==> o.uid != w.s.crs[k].uid
    requires k in w.leftover && RoutedWithin(w'.s.proxies, k.ns, k.name, w.leftover[k])
    requires w'.clearedUids <= w.clearedUids + {w.s.crs[k].uid}
    requires w'.clearedNames <= w.clearedNames + {k}
    ensures ClearedOk(w')
  {
    FewerOwnersCleared(w, w', w.s.crs[k].uid);
    ClearedAreGone(w, w', k);
    assert w.s.crs[k].uid in w.usedUids && w.clearedUids <= w.usedUids;
    hide RoutedWithin, Owns, WellFormed, SameEntry;
    forall j | j in w'.clearedNames
      ensures j in w.leftover && RoutedWithin(w'.s.proxies, j.ns, j.name, w.leftover[j])
    {
      if j != k {
        assert j in w.clearedNames;
        FewerRoutes(w.s.proxies, w'.s.proxies, j.ns, j.name, w.leftover[j]);
      }
    }
    hide OnlyRemoves;
  }

  lemma ClearedAreGone(w: World, w': World, k: Key)
    requires WellFormed(w) && ClearedOk(w) && Shrinks(w, w', k) && w.s.crs[k].deleting
    requires w'.clearedUids <= w.clearedUids + {w.s.crs[k].uid}
    requires w'.clearedNames <= w.clearedNames + {k}
    ensures forall j :: j in w'.clearedNames && j in w'.s.crs ==> w'.s.crs[j].deleting
    ensures forall j :: j in w'.s.crs && w'.s.crs[j].uid in w'.clearedUids ==> w'.s.crs[j].deleting
  {
    hide RoutedWithin, Owns, OnlyRemoves, Tidy, Named;
  }

  lemma FewerOwnersCleared(w: World, w': World, uid: string)
    requires OnlyRemoves(w.s.proxies, w'.s.proxies) && w'.clearedUids <= w.clearedUids + {uid}
    requires forall pk, o :: Owns(w.s.proxies, pk, o) ==> o.uid !in w.clearedUids
    requires forall pk, o :: Owns(w'.s.proxies, pk, o) ==> o.uid != uid
    ensures forall pk, o :: Owns(w'.s.proxies, pk, o) ==> o.uid !in w'.clearedUids
  {
    hide Owns, Serves;
  }

  lemma CreateKeepsWellFormed(w: World, cr: CR)
    requires WellFormed(w) && Fresh(w, cr)
    ensures WellFormed(Act(w, Create(cr)))
  {
    hide Owns, Tidy, Named;
  }

  lemma CreateKeepsIndex(w: World, cr: CR)
    requires WellFormed(w) && IndexOk(w) && Fresh(w, cr)
    ensures IndexOk(Act(w, Create(cr)))
  {
    NewcomerAgrees(w, cr);
    hide Agrees, WellFormed;
  }

  lemma CreateKeepsCleared(w: World, cr: CR)
    requires ClearedOk(w) && Fresh(w, cr)
    ensures ClearedOk(Act(w, Create(cr)))
  {
    hide Owns, RoutedWithin, Places;
  }

  lemma CreateKeepsInv(w: World, cr: CR)
    requires Inv(w) && Enabled(w, Create(cr))
    ensures Inv(Act(w, Create(cr)))
  {
    hide Act, WellFormed, IndexOk, ClearedOk, Fresh;
    CreateKeepsWellFormed(w, cr);
    CreateKeepsIndex(w, cr);
    CreateKeepsCleared(w, cr);
  }

  // Nothing in the proxies can be of a uid never given out, and the routes to
  // its service are those left over.
  lemma NewcomerAgrees(w: World, cr: CR)
    requires WellFormed(w) && Fresh(w, cr)
    ensures Agrees(cr, w.s.proxies, Places(w.s.proxies, NsOf(cr), cr.name))
  {
    OnlyPlaces(w.s.proxies, NsOf(cr), cr.name, Places(w.s.proxies, NsOf(cr), cr.name));
  }

  // A user changes one record, or removes it, and nothing else.
  lemma UserEventRecord(w: World, e: Event)
    requires WellFormed(w) && (e.Edit? || e.Delete? || e.Others?) && e.key in w.s.crs
    ensures var crs' := Act(w, e).s.crs;
            Act(w, e) == w.(s := w.s.(crs := crs')) &&
            (|| crs' == w.s.crs - {e.key}
             || (exists v :: crs' == w.s.crs[e.key := v] && SameEntry(w.s.crs[e.key], v)))
  {
    hide R.Reconcile, WellFormed;
    if e.key in Act(w, e).s.crs {
      var v := Act(w, e).s.crs[e.key];
      assert Act(w, e).s.crs == w.s.crs[e.key := v] && SameEntry(w.s.crs[e.key], v);
    }
  }

  lemma UserEventShrinks(w: World, e: Event)
    requires WellFormed(w) && (e.Edit? || e.Delete? || e.Others?) && e.key in w.s.crs
    ensures var w' := Act(w, e);
            && Shrinks(w, w', e.key) && w'.s.proxies == w.s.proxies
            && w'.clearedUids == w.clearedUids && w'.clearedNames == w.clearedNames
  {
    UserEventRecord(w, e);
    SameRemoves(w.s.proxies);
    hide WellFormed, OnlyRemoves, Act, SameEntry;
  }

  lemma UserEventKeepsInv(w: World, e: Event)
    requires Inv(w) && Enabled(w, e) && (e.Edit? || e.Delete? || e.Others?)
    ensures Inv(Act(w, e))
  {
    var w' := Act(w, e);
    assert e.key in w.s.crs;
    UserEventShrinks(w, e);
    assert Tidy(w'.s.proxies);
    hide Act, WellFormed, IndexOk, ClearedOk, Shrinks, Tidy, Enabled;
    ShrinkingKeepsIndex(w, w', e.key);
    ShrinkingKeepsCleared(w, w', e.key);
  }

  lemma ReconcileKeepsInv(w: World, k: Key)
    requires Inv(w) && k in w.s.crs
    ensures Inv(Act(w, Reconcile(k)))
  {
    var u := w.s.crs[k];
    if u.deleting {
      FinalReconcileKeepsInv(w, k);
    } else if Multiplicador(u.spec) <= 0 || u.spec.ruta == "" {
      QuietReconcileKeepsInv(w, k);
    } else {
      ActiveReconcileKeepsInv(w, k);
    }
  }

  lemma EventKeepsInv(w: World, e: Event)
    requires Inv(w) && Enabled(w, e)
    ensures Inv(Act(w, e))
  {
    if e.Create? {
      CreateKeepsInv(w, e.cr);
    } else if e.Reconcile? {
      ReconcileKeepsInv(w, e.key);
    } else {
      UserEventKeepsInv(w, e);
    }
  }

  // ---- The theorems over runs ----

  lemma {:induction false} RunKeepsInv(w: World, events: seq<Event>)
    requires Inv(w) && Runs(w, events)
    ensures Inv(After(w, events))
    decreases |events|
  {
    if |events| > 0 {
      EventKeepsInv(w, events[0]);
      RunKeepsInv(Act(w, events[0]), events[1..]);
    }
  }

  // In every run, a live resource has an owner entry in at most one proxy, and
  // its annotations name it; a route to its service is in the place they name,
  // or where one was before the resource was created.
  lemma AnnotationsIndexProxies(events: seq<Event>, k: Key)
    requires Runs(EMPTY, events) && k in After(EMPTY, events).s.crs
    ensures var w := After(EMPTY, events);
            var u := w.s.crs[k];
            && (forall pk, o :: Owns(w.s.proxies, pk, o) && o.uid == u.uid ==> pk == Key(k.ns, u.ann.proxy))
            && k in w.leftover
            && (forall pk, r :: Serves(w.s.proxies, pk, r) && pk.ns == k.ns && r.service == ServiceName(k.name) ==>
                  (pk == Key(k.ns, u.ann.proxy) && r.prefix == u.ann.route) || (pk, r.prefix) in w.leftover[k])
  {
    RunKeepsInv(EMPTY, events);
    var w := After(EMPTY, events);
    var u := w.s.crs[k];
    assert KeyOf(u) == k && Agrees(u, w.s.proxies, w.leftover[k]);
    forall pk, r | Serves(w.s.proxies, pk, r) && pk.ns == k.ns && r.service == ServiceName(k.name)
      ensures (pk == Key(k.ns, u.ann.proxy) && r.prefix == u.ann.route) || (pk, r.prefix) in w.leftover[k]
    {
      assert (pk, r.prefix) in w.leftover[k] + {(Recorded(u), u.ann.route)};
    }
  }

  // In every run, owners stay distinct by uid and routes distinct by prefix.
  lemma RunsStayTidy(events: seq<Event>)
    requires Runs(EMPTY, events)
    ensures Tidy(After(EMPTY, events).s.proxies)
  {
    RunKeepsInv(EMPTY, events);
  }

  lemma {:induction false} ClearedForGood(w: World, events: seq<Event>, uid: string, k: Key)
    requires Runs(w, events)
    requires uid in w.clearedUids && k in w.clearedNames
    ensures uid in After(w, events).clearedUids
    ensures (forall e :: e in events && e.Create? ==> KeyOf(e.cr) != k) ==>
              k in After(w, events).clearedNames
              && (k in w.leftover ==> k in After(w, events).leftover && After(w, events).leftover[k] == w.leftover[k])
    decreases |events|
  {
    if |events| > 0 {
      var w' := Act(w, events[0]);
      if events[0].Create? && KeyOf(events[0].cr) == k {
        assert events[0] in events;
        UidClearedForGood(w', events[1..], uid);
      } else {
        ClearedForGood(w', events[1..], uid, k);
      }
    }
  }

  lemma {:induction false} UidClearedForGood(w: World, events: seq<Event>, uid: string)
    requires Runs(w, events) && uid in w.clearedUids
    ensures uid in After(w, events).clearedUids
    decreases |events|
  {
    if |events| > 0 {
      UidClearedForGood(Act(w, events[0]), events[1..], uid);
    }
  }

  // A resource deleted while it carries the finalizer leaves no owner entry in
  // any proxy, ever after its cleanup; and until its name is taken again, no
  // route to its service but where one was before it was created.
  lemma FinalizedLeavesNothing(before: seq<Event>, k: Key, after: seq<Event>)
    requires Runs(EMPTY, before)
    requires var w := After(EMPTY, before); k in w.s.crs && w.s.crs[k].deleting && FINALIZER in w.s.crs[k].finalizers
    requires Runs(Act(After(EMPTY, before), Reconcile(k)), after)
    ensures var w := After(EMPTY, before);
            var proxies := After(Act(w, Reconcile(k)), after).s.proxies;
            && (forall pk, o :: Owns(proxies, pk, o) ==> o.uid != w.s.crs[k].uid)
            && k in w.leftover
            && ((forall e :: e in after && e.Create? ==> KeyOf(e.cr) != k) ==>
                  RoutedWithin(proxies, k.ns, k.name, w.leftover[k]))
  {
    RunKeepsInv(EMPTY, before);
    var w := After(EMPTY, before);
    var w' := Act(w, Reconcile(k));
    EventKeepsInv(w, Reconcile(k));
    RunKeepsInv(w', after);
    ClearedForGood(w', after, w.s.crs[k].uid, k);
  }

  // ---- Where the index can go wrong ----

  // In every run, a new resource's annotations agree with the proxies exactly
  // when its service is routed to from no place but the one they name: from none
  // at all, if it comes without them.
  lemma CreationKeepsIndexIff(events: seq<Event>, cr: CR)
    requires Runs(EMPTY, events) && Fresh(After(EMPTY, events), cr)
    ensures var w := After(EMPTY, events);
            var places := Places(w.s.proxies, NsOf(cr), cr.name);
            && (Agrees(cr, w.s.proxies, {}) <==> places <= {(Recorded(cr), cr.ann.route)})
            && (cr.ann == NO_ANNOTATIONS ==> (Agrees(cr, w.s.proxies, {}) <==> places == {}))
            && Act(w, Create(cr)).leftover[KeyOf(cr)] == places
  {
    RunKeepsInv(EMPTY, events);
    var w := After(EMPTY, events);
    NewcomerAgrees(w, cr);
    var place := (Recorded(cr), cr.ann.route);
    assert {} + {place} == {place};
    OnlyPlaces(w.s.proxies, NsOf(cr), cr.name, {place});
    if cr.ann == NO_ANNOTATIONS {
      NamelessPlace(w.s.proxies, cr);
    }
    hide Inv, Act, RoutedWithin, Places, Owns;
  }

  lemma OnlyPlaces(proxies: map<Key, Proxy>, ns: string, name: string, places: set<Place>)
    ensures RoutedWithin(proxies, ns, name, places) <==> Places(proxies, ns, name) <= places
  {
    if RoutedWithin(proxies, ns, name, places) {
      forall p | p in Places(proxies, ns, name) ensures p in places {
        var r :| r in proxies[p.0].routes && r.service == ServiceName(name) && p.0.ns == ns && r.prefix == p.1;
        assert Serves(proxies, p.0, r);
      }
    } else {
      var pk, r :| Serves(proxies, pk, r) && pk.ns == ns && r.service == ServiceName(name) && (pk, r.prefix) !in places;
      assert (pk, r.prefix) in Places(proxies, ns, name);
    }
  }

  // No proxy has an empty name, so the place an unannotated resource names is
  // nowhere.
  lemma NamelessPlace(proxies: map<Key, Proxy>, cr: CR)
    requires Named(proxies) && cr.ann == NO_ANNOTATIONS
    ensures (Recorded(cr), cr.ann.route) !in Places(proxies, NsOf(cr), cr.name)
  {
  }

  // The finalizer comes one reconcile late for the resource that creates its
  // proxy: deleted right then, it vanishes at once and leaves its owner entry and
  // its route behind.  One that joins an existing proxy waits for its cleanup.
  lemma DeletedAfterFirstReconcile(w: World, k: Key, w1: World)
    requires Inv(w) && k in w.s.crs && w1 == Act(w, Reconcile(k))
    requires var u := w.s.crs[k];
             !u.deleting && u.finalizers == [] && Multiplicador(u.spec) > 0 && u.spec.ruta != ""
    ensures k in w1.s.crs
    ensures var u := w.s.crs[k];
            var w2 := Act(w1, Delete(k));
            && (k !in w2.s.crs <==> Desired(u) !in w.s.proxies)
            && Serves(w2.s.proxies, Desired(u), RouteOf(u))
            && (Desired(u) !in w.s.proxies ==> Owns(w2.s.proxies, Desired(u), SharedOwner(u)))
  {
    var u := w.s.crs[k];
    ReconcileRewrites(w, k);
    RegisterServes(w.s.checked, R.LeaveOld(w.s.checked, w.s.proxies, u), u);
    LeavingKeepsDesired(w.s.checked, w.s.proxies, u);
    hide R.Register, R.LeaveOld, R.Reconcile, Inv, Owns, Serves;
  }

  // So a resource may find routes to its service left over: one of the same name
  // was created, reconciled once and deleted.
  lemma NameTakenOverLeftover(a: CR, b: CR)
    requires KeyOf(a) == KeyOf(b) && a.uid != b.uid && a.name != "" && b.name == a.name
    requires a.ann == NO_ANNOTATIONS && b.ann == NO_ANNOTATIONS && !a.deleting && !b.deleting && a.finalizers == []
    requires Registers(a)
    ensures var events := [Create(a), Reconcile(KeyOf(a)), Delete(KeyOf(a))];
            && Runs(EMPTY, events) && Fresh(After(EMPTY, events), b)
            && !Agrees(b, After(EMPTY, events).s.proxies, {})
  {
    var events := [Create(a), Reconcile(KeyOf(a)), Delete(KeyOf(a))];
    LeavesRoute(a, events);
    var w := After(EMPTY, events);
    hide Runs, After, Agrees, Serves, Registers, Multiplicador;
    CreationKeepsIndexIff(events, b);
    assert Serves(w.s.proxies, Desired(a), RouteOf(a));
    RoutedFrom(w.s.proxies, NsOf(b), b.name, Desired(a), RouteOf(a));
  }

  lemma RoutedFrom(proxies: map<Key, Proxy>, ns: string, name: string, pk: Key, r: Route)
    requires Serves(proxies, pk, r) && pk.ns == ns && r.service == ServiceName(name)
    ensures Places(proxies, ns, name) != {}
  {
    assert (pk, r.prefix) in Places(proxies, ns, name);
  }

  lemma LeavesRoute(a: CR, events: seq<Event>)
    requires a.name != "" && a.ann == NO_ANNOTATIONS && !a.deleting && a.finalizers == [] && Registers(a)
    requires events == [Create(a), Reconcile(KeyOf(a)), Delete(KeyOf(a))]
    ensures Runs(EMPTY, events)
    ensures var w := After(EMPTY, events);
            KeyOf(a) !in w.s.crs && w.usedUids == {a.uid} && Serves(w.s.proxies, Desired(a), RouteOf(a))
  {
    var k := KeyOf(a);
    var w0 := Act(EMPTY, Create(a));
    EventKeepsInv(EMPTY, Create(a));
    var w1 := Act(w0, Reconcile(k));
    DeletedAfterFirstReconcile(w0, k, w1);
    ThreeEvents(EMPTY, w0, w1, Act(w1, Delete(k)), events);
    hide R.Reconcile, Inv, Serves, Owns;
  }

  lemma ThreeEvents(w: World, w0: World, w1: World, w2: World, events: seq<Event>)
    requires |events| == 3 && Enabled(w, events[0]) && w0 == Act(w, events[0])
    requires Enabled(w0, events[1]) && w1 == Act(w0, events[1])
    requires Enabled(w1, events[2]) && w2 == Act(w1, events[2])
    ensures Runs(w, events) && After(w, events) == w2
  {
    hide Act, Enabled;
    assert events[1..][1..] == events[2..] && events[2..][1..] == [];
    assert Runs(w2, []) && Runs(w1, events[2..]) && Runs(w0, events[1..]);
    assert After(w1, events[2..]) == w2 && After(w0, events[1..]) == w2;
  }

  lemma RegisterServes(checked: bool, proxies: map<Key, Proxy>, u: CR)
    ensures var after := R.Register(checked, proxies, u);
            && Serves(after, Desired(u), RouteOf(u))
            && (Desired(u) !in proxies ==> Owns(after, Desired(u), SharedOwner(u)))
  {
    if Desired(u) in proxies {
      var p := proxies[Desired(u)];
      UpsertMembers(if R.Renamed(u) then WithoutRoute(p.routes, u.ann.route) else p.routes, RouteOf(u));
    }
  }
}
