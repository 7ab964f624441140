/** The list surgery the operator performs on owner references, routes,
    finalizers and environment variables.  Every list is consumed from its end,
    which is where the operator's loops append. */
module ProxyLists {
  import opened Wrappers
  import opened Objects

  // ---- Owners ----

  ghost predicate OwnedBy(owners: seq<Owner>, uid: string) {
    exists i :: 0 <= i < |owners| && owners[i].uid == uid
  }

  ghost predicate DistinctOwners(owners: seq<Owner>) {
    forall i, j :: 0 <= i < j < |owners| ==> owners[i].uid != owners[j].uid
  }

  function WithoutOwner(owners: seq<Owner>, uid: string): seq<Owner> {
    if |owners| == 0 then []
    else
      var rest := WithoutOwner(owners[..|owners| - 1], uid);
      if owners[|owners| - 1].uid == uid then rest else rest + [owners[|owners| - 1]]
  }

  function HasOwner(owners: seq<Owner>, uid: string): (r: bool)
    ensures r <==> OwnedBy(owners, uid)
  {
    exists i :: 0 <= i < |owners| && owners[i].uid == uid
  }

  function WithOwner(owners: seq<Owner>, o: Owner): seq<Owner> {
    if HasOwner(owners, o.uid) then owners else owners + [o]
  }

  lemma {:induction false} WithoutOwnerMembers(owners: seq<Owner>, uid: string)
    ensures forall o :: o in WithoutOwner(owners, uid) <==> o in owners && o.uid != uid
    ensures !OwnedBy(WithoutOwner(owners, uid), uid)
    ensures forall v :: v != uid ==> (OwnedBy(WithoutOwner(owners, uid), v) <==> OwnedBy(owners, v))
  {
    if |owners| > 0 {
      WithoutOwnerMembers(owners[..|owners| - 1], uid);
      assert owners == owners[..|owners| - 1] + [owners[|owners| - 1]];
    }
    OwnedByIn(owners);
    OwnedByIn(WithoutOwner(owners, uid));
  }

  lemma OwnedByIn(owners: seq<Owner>)
    ensures forall v :: OwnedBy(owners, v) <==> exists o :: o in owners && o.uid == v
  {
  }

  lemma {:induction false} WithoutOwnerAbsent(owners: seq<Owner>, uid: string)
    ensures WithoutOwner(owners, uid) == owners <==> !OwnedBy(owners, uid)
  {
    WithoutOwnerMembers(owners, uid);
    if !OwnedBy(owners, uid) && |owners| > 0 {
      WithoutOwnerAbsent(owners[..|owners| - 1], uid);
    }
  }

  lemma {:induction false} WithoutOwnerKeepsDistinct(owners: seq<Owner>, uid: string)
    requires DistinctOwners(owners)
    ensures DistinctOwners(WithoutOwner(owners, uid))
  {
    if |owners| > 0 {
      WithoutOwnerKeepsDistinct(owners[..|owners| - 1], uid);
      WithoutOwnerMembers(owners[..|owners| - 1], uid);
    }
  }

  lemma WithoutOwnerAfterAdding(owners: seq<Owner>, o: Owner)
    ensures WithoutOwner(WithOwner(owners, o), o.uid) == WithoutOwner(owners, o.uid)
  {
    assert (owners + [o])[..|owners|] == owners;
  }

  lemma OwnedAfterWith(owners: seq<Owner>, o: Owner)
    ensures OwnedBy(WithOwner(owners, o), o.uid)
  {
    if !HasOwner(owners, o.uid) {
      assert (owners + [o])[|owners|] == o;
    }
  }

  lemma {:induction false} WithoutOwnerTwice(owners: seq<Owner>, uid: string)
    ensures WithoutOwner(WithoutOwner(owners, uid), uid) == WithoutOwner(owners, uid)
  {
    WithoutOwnerMembers(owners, uid);
    WithoutOwnerAbsent(WithoutOwner(owners, uid), uid);
  }

  // ---- Routes ----

  ghost predicate Routed(routes: seq<Route>, prefix: string) {
    exists i :: 0 <= i < |routes| && routes[i].prefix == prefix
  }

  ghost predicate DistinctPrefixes(routes: seq<Route>) {
    forall i, j :: 0 <= i < j < |routes| ==> routes[i].prefix != routes[j].prefix
  }

  function WithoutRoute(routes: seq<Route>, prefix: string): seq<Route> {
    if |routes| == 0 then []
    else
      var rest := WithoutRoute(routes[..|routes| - 1], prefix);
      if routes[|routes| - 1].prefix == prefix then rest else rest + [routes[|routes| - 1]]
  }

  // The index of the first element with a name, or the length when there is none.
  function FirstNamed<T>(xs: seq<T>, nameOf: T -> string, name: string): (k: nat)
    ensures k <= |xs|
    ensures k < |xs| ==> nameOf(xs[k]) == name
    ensures forall i :: 0 <= i < k ==> nameOf(xs[i]) != name
  {
    if |xs| == 0 then 0
    else
      var k := FirstNamed(xs[..|xs| - 1], nameOf, name);
      if k < |xs| - 1 || nameOf(xs[|xs| - 1]) == name then k else |xs|
  }

  function FirstRoute(routes: seq<Route>, prefix: string): (k: nat)
    ensures k <= |routes|
    ensures k < |routes| ==> routes[k].prefix == prefix
    ensures forall i :: 0 <= i < k ==> routes[i].prefix != prefix
  {
    FirstNamed(routes, (r: Route) => r.prefix, prefix)
  }

  // The service a proxy sends a prefix to: the first route wins.
  function Lookup(routes: seq<Route>, prefix: string): Option<string> {
    var k := FirstRoute(routes, prefix);
    if k < |routes| then Some(routes[k].service) else None
  }

  // Replace the first route with the same prefix, or append.
  function Upsert(routes: seq<Route>, r: Route): (res: seq<Route>)
  {
    var k := FirstRoute(routes, r.prefix);
    if k < |routes| then routes[k := r] else routes + [r]
  }

  lemma LookupIs(routes: seq<Route>, prefix: string, k: nat)
    requires k < |routes| && routes[k].prefix == prefix
    requires forall i :: 0 <= i < k ==> routes[i].prefix != prefix
    ensures Lookup(routes, prefix) == Some(routes[k].service)
  {
    assert FirstRoute(routes, prefix) == k;
  }

  lemma {:induction false} WithoutRouteMembers(routes: seq<Route>, prefix: string)
    ensures forall r :: r in WithoutRoute(routes, prefix) <==> r in routes && r.prefix != prefix
  {
    if |routes| > 0 {
      WithoutRouteMembers(routes[..|routes| - 1], prefix);
      assert routes == routes[..|routes| - 1] + [routes[|routes| - 1]];
    }
  }

  lemma {:induction false} WithoutRouteAbsent(routes: seq<Route>, prefix: string)
    ensures WithoutRoute(routes, prefix) == routes <==> !Routed(routes, prefix)
  {
    if Routed(routes, prefix) {
      var i :| 0 <= i < |routes| && routes[i].prefix == prefix;
      hide WithoutRoute;
      WithoutRouteMembers(routes, prefix);
      assert routes[i] in routes && routes[i] !in WithoutRoute(routes, prefix);
    } else {
      NothingToRemove(routes, prefix);
    }
  }

  lemma {:induction false} NothingToRemove(routes: seq<Route>, prefix: string)
    requires !Routed(routes, prefix)
    ensures WithoutRoute(routes, prefix) == routes
  {
    if |routes| > 0 {
      var front, last := routes[..|routes| - 1], routes[|routes| - 1];
      assert forall i :: 0 <= i < |front| ==> front[i] == routes[i];
      assert last.prefix != prefix && routes == front + [last];
      NothingToRemove(front, prefix);
    }
  }

  lemma {:induction false} WithoutRouteKeepsDistinct(routes: seq<Route>, prefix: string)
    requires DistinctPrefixes(routes)
    ensures DistinctPrefixes(WithoutRoute(routes, prefix))
  {
    if |routes| > 0 {
      WithoutRouteKeepsDistinct(routes[..|routes| - 1], prefix);
      WithoutRouteMembers(routes[..|routes| - 1], prefix);
    }
  }

  lemma {:induction false} WithoutRouteLookup(routes: seq<Route>, prefix: string, q: string)
    requires q != prefix
    ensures Lookup(WithoutRoute(routes, prefix), q) == Lookup(routes, q)
  {
    if |routes| > 0 {
      var front, last := routes[..|routes| - 1], routes[|routes| - 1];
      WithoutRouteLookup(front, prefix, q);
      LookupSnoc(front, last, q);
      LookupSnoc(WithoutRoute(front, prefix), last, q);
      assert routes == front + [last];
    }
  }

  lemma LookupSnoc(routes: seq<Route>, r: Route, q: string)
    ensures Lookup(routes + [r], q) ==
            if Lookup(routes, q).Some? then Lookup(routes, q)
            else if r.prefix == q then Some(r.service) else None
  {
    assert (routes + [r])[..|routes|] == routes;
  }

  lemma UpsertLookup(routes: seq<Route>, r: Route, q: string)
    ensures Lookup(Upsert(routes, r), q) == if q == r.prefix then Some(r.service) else Lookup(routes, q)
  {
    var k := FirstRoute(routes, r.prefix);
    var res := Upsert(routes, r);
    if q == r.prefix {
      LookupIs(res, q, k);
    } else if k == |routes| {
      LookupSnoc(routes, r, q);
    } else {
      var j := FirstRoute(routes, q);
      if j < |routes| {
        assert forall i :: 0 <= i < j ==> res[i].prefix != q;
        LookupIs(res, q, j);
      } else {
        assert forall i :: 0 <= i < |res| ==> res[i].prefix != q;
      }
    }
  }

  lemma UpsertKeepsDistinct(routes: seq<Route>, r: Route)
    requires DistinctPrefixes(routes)
    ensures DistinctPrefixes(Upsert(routes, r))
  {
  }

  lemma UpsertMembers(routes: seq<Route>, r: Route)
    ensures forall x :: x in Upsert(routes, r) ==> x == r || x in routes
    ensures forall x :: x in routes && x.prefix != r.prefix ==> x in Upsert(routes, r)
    ensures r in Upsert(routes, r)
  {
    var k := FirstRoute(routes, r.prefix);
    var res := Upsert(routes, r);
    assert res[k] == r;
    forall x | x in routes && x.prefix != r.prefix ensures x in res {
      var i :| 0 <= i < |routes| && routes[i] == x;
      assert res[i] == x;
    }
  }

  lemma UpsertSame(routes: seq<Route>, r: Route)
    ensures Upsert(routes, r) == routes <==> Lookup(routes, r.prefix) == Some(r.service)
  {
    var k := FirstRoute(routes, r.prefix);
    if k < |routes| && routes[k].service == r.service {
      assert routes[k] == r;
    } else if k < |routes| {
      assert Upsert(routes, r)[k] != routes[k];
    }
  }

  // Taking a prefix out forgets whatever was put under it.
  lemma {:induction false} WithoutRouteAfterUpsert(routes: seq<Route>, r: Route)
    ensures WithoutRoute(Upsert(routes, r), r.prefix) == WithoutRoute(routes, r.prefix)
  {
    var k := FirstRoute(routes, r.prefix);
    if k == |routes| {
      assert (routes + [r])[..|routes|] == routes;
    } else {
      var front := routes[..|routes| - 1];
      var res := Upsert(routes, r);
      if k == |routes| - 1 {
        assert res[..|routes| - 1] == front;
      } else {
        WithoutRouteAfterUpsert(front, r);
        assert res[..|routes| - 1] == Upsert(front, r);
      }
    }
  }

  lemma {:induction false} WithoutRouteCommutes(routes: seq<Route>, p: string, q: string)
    ensures WithoutRoute(WithoutRoute(routes, p), q) == WithoutRoute(WithoutRoute(routes, q), p)
  {
    if |routes| > 0 {
      var front, last := routes[..|routes| - 1], routes[|routes| - 1];
      WithoutRouteCommutes(front, p, q);
      WithoutRouteSnoc(WithoutRoute(front, p), last, q);
      WithoutRouteSnoc(WithoutRoute(front, q), last, p);
    }
  }

  lemma WithoutRouteSnoc(routes: seq<Route>, r: Route, p: string)
    ensures WithoutRoute(routes + [r], p) ==
            if r.prefix == p then WithoutRoute(routes, p) else WithoutRoute(routes, p) + [r]
  {
    assert (routes + [r])[..|routes|] == routes;
  }

  lemma {:induction false} WithoutRouteTwice(routes: seq<Route>, p: string)
    ensures WithoutRoute(WithoutRoute(routes, p), p) == WithoutRoute(routes, p)
  {
    WithoutRouteMembers(routes, p);
    WithoutRouteAbsent(WithoutRoute(routes, p), p);
  }

  // ---- Finalizers and environment variables ----

  function WithoutFinalizer(fs: seq<string>): seq<string> {
    if |fs| == 0 then []
    else
      var rest := WithoutFinalizer(fs[..|fs| - 1]);
      if fs[|fs| - 1] == FINALIZER then rest else rest + [fs[|fs| - 1]]
  }

  function WithFinalizer(fs: seq<string>): (r: seq<string>)
    ensures FINALIZER in r
  {
    if FINALIZER in fs then fs else fs + [FINALIZER]
  }

  lemma {:induction false} WithoutFinalizerMembers(fs: seq<string>)
    ensures forall f :: f in WithoutFinalizer(fs) <==> f in fs && f != FINALIZER
    ensures |WithoutFinalizer(fs)| <= |fs|
    ensures |WithoutFinalizer(fs)| == |fs| <==> FINALIZER !in fs
  {
    if |fs| > 0 {
      WithoutFinalizerMembers(fs[..|fs| - 1]);
      assert fs == fs[..|fs| - 1] + [fs[|fs| - 1]];
    }
  }

  function FirstEnv(env: seq<EnvVar>, name: string): (k: nat)
    ensures k <= |env|
    ensures k < |env| ==> env[k].name == name
    ensures forall i :: 0 <= i < k ==> env[i].name != name
  {
    FirstNamed(env, (v: EnvVar) => v.name, name)
  }

  function SetEnv(env: seq<EnvVar>, v: EnvVar): seq<EnvVar> {
    var k := FirstEnv(env, v.name);
    if k < |env| then env[k := v] else env + [v]
  }

  lemma SetEnvTwice(env: seq<EnvVar>, v: EnvVar)
    ensures SetEnv(SetEnv(env, v), v) == SetEnv(env, v)
  {
    var k := FirstEnv(env, v.name);
    var res := SetEnv(env, v);
    assert k < |res| && res[k] == v;
    assert FirstEnv(res, v.name) == k;
  }
}
