/** Repeated reconciles of one resource against a server that checks versions.
    The operator throws away the object an update returns, so its copy goes stale
    at the first write that changes anything: one call makes one change to the
    resource.  Three calls reach the fixpoint all the same. */
module VersionedCalls {
  import opened Wrappers
  import opened Objects
  import opened ProxyLists
  import R = Reconciler
  import opened ProxySharing
  import opened DirectWrites
  import opened DesiredState
  import opened Sweeps

  // A valid resource that is not being deleted, on a server that checks versions.
  ghost predicate Active(s: R.Store, k: Key) {
    && s.checked && k in s.crs && KeyOf(s.crs[k]) == k
    && !s.crs[k].deleting && Multiplicador(s.crs[k].spec) > 0
  }

  // A worker reads the resource and reconciles the copy it read.
  function Call(s: R.Store, k: Key): R.Store
    requires k in s.crs
  {
    R.Reconcile(s, s.crs[k]).store
  }

  predicate Named(u: CR) {
    u.ann.proxy == ProxyName(u) && u.ann.route == PrefixOf(u)
  }

  // A resource has recorded the proxy and prefix it wants, with the finalizer if
  // it finds its proxy,
  predicate Indexed(u: CR, existed: bool) {
    Named(u) && (existed ==> FINALIZER in u.finalizers)
  }

  // as it does in the end.
  predicate Registered(u: CR) {
    u.spec.ruta != "" ==> Indexed(u, true)
  }

  // The one write of a call that sticks: the first that changes the resource.
  function Record(s: R.Store, u: CR): CR {
    if !Stamped(u) then R.Validated(u).(rv := u.rv + 1)
    else if DeploymentKey(u) !in s.deployments && !Reported(u) then u.(status := ReadyStatus(u), rv := u.rv + 1)
    else if u.spec.ruta != "" && !Indexed(u, Desired(u) in s.proxies)
    then R.Indexed(u, Desired(u) in s.proxies).(rv := u.rv + 1)
    else if !Reported(u) then u.(status := ReadyStatus(u), rv := u.rv + 1)
    else u
  }

  lemma IndexedIff(u: CR, existed: bool)
    ensures R.Indexed(u, existed) == u <==> Indexed(u, existed)
  {
    var v := R.Indexed(u, existed);
    if Indexed(u, existed) {
      assert v.ann == u.ann && v.finalizers == u.finalizers;
    } else if existed && FINALIZER !in u.finalizers {
      assert |v.finalizers| != |u.finalizers|;
    }
  }

  // ---- What one write does ----

  // A stale copy is refused everywhere.
  lemma StaleWrites(s: R.Store, u: CR)
    requires s.checked && (KeyOf(u) in s.crs ==> s.crs[KeyOf(u)].rv != u.rv)
    ensures R.UpdateCr(s, u).store == s && R.UpdateStatusOrAll(s, u).store == s
  {
  }

  // A current copy takes effect once; its version then moves on.
  lemma CurrentWrites(s: R.Store, u: CR)
    requires s.checked && KeyOf(u) in s.crs && s.crs[KeyOf(u)].rv == u.rv && !u.deleting
    ensures var stored := s.crs[KeyOf(u)];
            && R.UpdateCr(s, u).store ==
                 (if u.(status := stored.status) == stored then s
                  else s.(crs := s.crs[KeyOf(u) := u.(status := stored.status, rv := u.rv + 1)]))
            && R.UpdateStatusOrAll(s, u).store ==
                 (if stored.status == u.status then s
                  else s.(crs := s.crs[KeyOf(u) := stored.(status := u.status, rv := u.rv + 1)]))
  {
  }

  lemma EnsureAllParts(s: R.Store, u: CR)
    ensures var v := if u.spec.ruta == "" then u else R.Indexed(u, Desired(u) in s.proxies);
            var (t, u') := R.EnsureAll(s, u);
            && u' == v
            && t == (if u.spec.ruta == "" then s.(services := R.EnsureService(s.services, u))
                     else R.UpdateCr(s.(services := R.EnsureService(s.services, u),
                                        proxies := R.EnsureProxy(s.checked, s.proxies, u)), v).store)
  {
    LeavingKeepsDesired(s.checked, s.proxies, u);
  }

  // ---- What one call does ----

  // A call's effect on everything but the resource's record.
  function Rest(s: R.Store, u: CR): R.Store {
    s.(deployments := R.EnsureDeployment(s.deployments, u),
       services := R.EnsureService(s.services, u),
       proxies := R.EnsureProxy(s.checked, s.proxies, u))
  }

  // Registration in the middle of a call sees the same resource.
  lemma MidCall(s: R.Store, u: CR, v: CR)
    requires u.ns == v.ns && u.name == v.name && u.uid == v.uid && u.spec == v.spec
    requires u.ann.proxy == v.ann.proxy && u.ann.route == v.ann.route
    ensures var t := Rest(s, u);
            var m := s.(deployments := t.deployments);
            var w := if v.spec.ruta == "" then v else R.Indexed(v, Desired(u) in s.proxies);
            && R.EnsureAll(m, v).1 == w
            && R.EnsureAll(m, v).0 == if v.spec.ruta == "" then t else R.UpdateCr(t, w).store
  {
    hide R.EnsureProxy, R.EnsureDeployment, R.EnsureService, R.EnsureAll, R.UpdateCr;
    var m := s.(deployments := R.EnsureDeployment(s.deployments, u));
    EnsureAllParts(m, v);
    SameRegistration(s.checked, s.proxies, u, v);
    SameService(s.services, u, v);
    NoRouteNoProxy(s.checked, s.proxies, u);
  }

  lemma StaleCall(s: R.Store, k: Key)
    requires Active(s, k) && !Stamped(s.crs[k])
    ensures Call(s, k) == Rest(s, s.crs[k]).(crs := s.crs[k := Record(s, s.crs[k])])
  {
    hide R.EnsureProxy, R.EnsureDeployment, R.EnsureService, R.EnsureAll, R.UpdateCr, R.UpdateStatusOrAll;
    var u := s.crs[k];
    StampedIff(u);
    hide Stamped, Reported, Indexed;
    var u1 := R.Validated(u);
    CurrentWrites(s, u1);
    var s1 := s.(crs := s.crs[k := u1.(rv := u.rv + 1)]);
    assert R.UpdateCr(s, u1).store == s1;
    var u2 := u1.(status := ReadyStatus(u));
    var existed := Desired(u) in s.proxies;
    MidCall(s1, u, u1);
    MidCall(s1, u, u2);
    var m, t := s1.(deployments := R.EnsureDeployment(s.deployments, u)), Rest(s1, u);
    StaleWrites(m, u2);
    StaleWrites(t, R.Indexed(u1, existed));
    StaleWrites(t, R.Indexed(u2, existed));
    StaleWrites(t, R.Indexed(u1, existed).(status := ReadyStatus(u)));
    StaleWrites(t, u2);
  }

  // The first write changes nothing: the copy is still current.
  lemma CurrentCall(s: R.Store, k: Key)
    requires Active(s, k) && Stamped(s.crs[k])
    ensures Call(s, k) == Rest(s, s.crs[k]).(crs := s.crs[k := Record(s, s.crs[k])])
  {
    hide R.EnsureProxy, R.EnsureDeployment, R.EnsureService, R.EnsureAll, R.UpdateCr, R.UpdateStatusOrAll;
    var u := s.crs[k];
    StampedIff(u);
    ReportedIff(u);
    IndexedIff(u, Desired(u) in s.proxies);
    hide Stamped, Reported, Indexed;
    CurrentWrites(s, u);
    assert s.crs[k := u] == s.crs;
    var ready := u.(status := ReadyStatus(u));
    var t := Rest(s, u);
    if DeploymentKey(u) !in s.deployments {
      var m := s.(deployments := t.deployments);
      CurrentWrites(m, ready);
      if u.status == ReadyStatus(u) {
        assert ready == u;
        MidCall(s, u, u);
        CurrentWrites(t, R.Indexed(u, Desired(u) in s.proxies));
      } else {
        var s1 := s.(crs := s.crs[k := ready.(rv := u.rv + 1)]);
        MidCall(s1, u, ready);
        StaleWrites(Rest(s1, u), R.Indexed(ready, Desired(u) in s.proxies));
      }
    } else {
      CurrentDeployedCall(s, k);
    }
  }

  lemma CurrentDeployedCall(s: R.Store, k: Key)
    requires Active(s, k) && Stamped(s.crs[k])
    requires DeploymentKey(s.crs[k]) in s.deployments
    ensures Call(s, k) == Rest(s, s.crs[k]).(crs := s.crs[k := Record(s, s.crs[k])])
  {
    hide R.EnsureProxy, R.EnsureDeployment, R.EnsureService, R.EnsureAll, R.UpdateCr, R.UpdateStatusOrAll;
    var u := s.crs[k];
    StampedIff(u);
    ReportedIff(u);
    IndexedIff(u, Desired(u) in s.proxies);
    hide Stamped, Reported, Indexed;
    CurrentWrites(s, u);
    assert s.crs[k := u] == s.crs;
    var t := Rest(s, u);
    MidCall(s, u, u);
    var indexed := if u.spec.ruta == "" then u else R.Indexed(u, Desired(u) in s.proxies);
    CurrentWrites(t, indexed);
    var ready := indexed.(status := ReadyStatus(u));
    if indexed != u {
      var t1 := t.(crs := s.crs[k := indexed.(rv := u.rv + 1)]);
      StaleWrites(t1, ready);
    } else {
      CurrentWrites(t, ready);
    }
  }

  lemma CallIs(s: R.Store, k: Key)
    requires Active(s, k)
    ensures Call(s, k) == Rest(s, s.crs[k]).(crs := s.crs[k := Record(s, s.crs[k])])
  {
    if !Stamped(s.crs[k]) {
      StaleCall(s, k);
    } else {
      CurrentCall(s, k);
    }
  }

  lemma NoRouteNoProxy(checked: bool, proxies: map<Key, Proxy>, u: CR)
    ensures u.spec.ruta == "" ==> R.EnsureProxy(checked, proxies, u) == proxies
  {
  }

  // ---- Three calls ----

  // Everything but the resource's own record is as desired.
  ghost predicate RestReady(s: R.Store, u: CR) {
    && DeploymentKey(u) in s.deployments && DeploymentDesired(s.deployments[DeploymentKey(u)], u)
    && ServiceKey(u) in s.services && ServiceDesired(s.services[ServiceKey(u)], u)
    && (u.spec.ruta != "" ==>
          && Desired(u) in s.proxies && OwnedBy(s.proxies[Desired(u)].owners, u.uid)
          && Lookup(s.proxies[Desired(u)].routes, PrefixOf(u)) == Some(ServiceName(u.name))
          && (u.spec.host != "" ==> s.proxies[Desired(u)].fqdn == u.spec.host))
  }

  // The three stages: after one call, after two, and at the fixpoint.
  ghost predicate Stage(s: R.Store, k: Key, n: nat) {
    && Active(s, k)
    && (n >= 1 ==> Stamped(s.crs[k]) && RestReady(s, s.crs[k]))
    && (n >= 2 ==> Registered(s.crs[k]))
    && (n >= 3 ==> Reported(s.crs[k]))
  }

  predicate SameDesire(u: CR, v: CR) {
    u.ns == v.ns && u.name == v.name && u.uid == v.uid && u.spec == v.spec
  }

  lemma RestBecomesReady(s: R.Store, u: CR, v: CR)
    requires SameDesire(u, v)
    ensures RestReady(Rest(s, u), v)
  {
    hide R.EnsureDeployment, R.EnsureService, R.LeaveOld, R.Register, DeploymentDesired, ServiceDesired;
    var t := Rest(s, u);
    EnsuredDeployment(s.deployments, u);
    EnsuredService(s.services, u);
    DesiredBySame(t.deployments[DeploymentKey(u)], t.services[ServiceKey(u)], u, v);
    RegisterJoins(s.checked, R.LeaveOld(s.checked, s.proxies, u), u);
  }

  lemma CallKeepsActive(s: R.Store, k: Key)
    requires Active(s, k)
    ensures var t := Call(s, k);
            && Active(t, k) && SameDesire(s.crs[k], t.crs[k])
            && t.crs == s.crs[k := Record(s, s.crs[k])]
            && RestReady(t, t.crs[k])
  {
    hide R.Reconcile, R.EnsureProxy, R.EnsureDeployment, R.EnsureService, RestReady;
    CallIs(s, k);
    var u := s.crs[k];
    var v := Record(s, u);
    RestBecomesReady(s, u, v);
    ReadyIgnoresRecords(Rest(s, u), Call(s, k), v);
  }

  lemma ReadyIgnoresRecords(s: R.Store, t: R.Store, u: CR)
    requires RestReady(s, u) && t == s.(crs := t.crs)
    ensures RestReady(t, u)
  {
  }

  lemma CallAdvances(s: R.Store, k: Key, n: nat)
    requires Stage(s, k, n)
    ensures Stage(Call(s, k), k, n + 1)
  {
    hide R.Reconcile, RestReady;
    CallKeepsActive(s, k);
    var u, v := s.crs[k], Record(s, s.crs[k]);
    if n == 0 {
      FirstRecord(s, u, v);
    } else {
      ReadyMeans(s, u);
      SecondRecord(s, u, v);
    }
    hide Stamped, Reported, Registered, Record, Call;
  }

  lemma ReadyMeans(s: R.Store, u: CR)
    requires RestReady(s, u)
    ensures DeploymentKey(u) in s.deployments && (u.spec.ruta != "" ==> Desired(u) in s.proxies)
  {
  }

  lemma ReadyRestIsFixed(s: R.Store, u: CR)
    requires RestReady(s, u) && Registered(u)
    ensures Rest(s, u) == s
  {
    hide R.FixDeployment, R.FixService, DeploymentDesired, ServiceDesired;
    DeploymentCorrected(s.deployments[DeploymentKey(u)], u);
    ServiceCorrected(s.services[ServiceKey(u)], u);
    if u.spec.ruta != "" {
      MergeIsIdentity(s.proxies[Desired(u)], u);
      assert R.EnsureProxy(s.checked, s.proxies, u) == s.proxies;
    }
    assert R.EnsureDeployment(s.deployments, u) == s.deployments;
    assert R.EnsureService(s.services, u) == s.services;
  }

  lemma LastStageIsFixed(s: R.Store, k: Key)
    requires Stage(s, k, 3)
    ensures Call(s, k) == s
  {
    hide R.Reconcile, RestReady, Rest;
    CallIs(s, k);
    ReadyMeans(s, s.crs[k]);
    ReadyRestIsFixed(s, s.crs[k]);
    assert s.crs[k := s.crs[k]] == s.crs;
  }

  // A worker calls n times, as long as the resource is there.
  function Calls(s: R.Store, k: Key, n: nat): R.Store
    decreases n
  {
    if n == 0 then s
    else
      var t := Calls(s, k, n - 1);
      if k in t.crs then Call(t, k) else t
  }

  lemma {:induction false} CallsReachStage(s: R.Store, k: Key, n: nat)
    requires Active(s, k)
    ensures var t := Calls(s, k, n);
            Stage(t, k, if n < 3 then n else 3) && SameDesire(s.crs[k], t.crs[k])
  {
    hide R.Reconcile, RestReady, Registered;
    if n > 0 {
      CallsReachStage(s, k, n - 1);
      var t := Calls(s, k, n - 1);
      CallKeepsActive(t, k);
      CallAdvances(t, k, if n <= 3 then n - 1 else 3);
    }
  }

  // From any state, three calls reach a fixpoint: resource, deployment, service
  // and proxies as desired, index and finalizer recorded, status reported; and
  // further calls write nothing, so no version moves.
  lemma {:induction false} ThreeCallsReachFixpoint(s: R.Store, k: Key, n: nat)
    requires Active(s, k) && n >= 3
    ensures Stage(Calls(s, k, 3), k, 3) && SameDesire(s.crs[k], Calls(s, k, 3).crs[k])
    ensures Calls(s, k, n) == Calls(s, k, 3)
    decreases n
  {
    hide R.Reconcile, RestReady, Registered;
    CallsReachStage(s, k, 3);
    if n > 3 {
      ThreeCallsReachFixpoint(s, k, n - 1);
      LastStageIsFixed(Calls(s, k, 3), k);
    }
  }

  // The fixpoints are exactly the states of the last stage.
  lemma FixpointIffLastStage(s: R.Store, k: Key)
    requires Active(s, k)
    ensures Call(s, k) == s <==> Stage(s, k, 3)
  {
    hide R.Reconcile, RestReady, Registered;
    if Call(s, k) == s {
      CallAdvances(s, k, 0);
      CallAdvances(s, k, 1);
      CallAdvances(s, k, 2);
    } else if Stage(s, k, 3) {
      LastStageIsFixed(s, k);
    }
  }

  // Two calls do it unless there are three records to write: stamp, index and
  // status, or the index twice, because its proxy is yet to be created, and the
  // status.
  predicate TwoRecordsAtMost(s: R.Store, u: CR) {
    if !Stamped(u) then Registered(u) || Reported(u)
    else
      || u.spec.ruta == "" || Reported(u) || DeploymentKey(u) !in s.deployments
      || Desired(u) in s.proxies || FINALIZER in u.finalizers || Named(u)
  }

  lemma TwoCallsEnoughIff(s: R.Store, k: Key)
    requires Active(s, k)
    ensures Stage(Calls(s, k, 2), k, 3) <==> TwoRecordsAtMost(s, s.crs[k])
  {
    var s1, s2 := Calls(s, k, 1), Calls(s, k, 2);
    TwoCalls(s, k);
    CallsReachStage(s, k, 2);
    hide R.Reconcile, RestReady, Calls, Call;
    RecordedTwice(s, s1, s.crs[k], s1.crs[k]);
  }

  lemma TwoCalls(s: R.Store, k: Key)
    requires Active(s, k)
    ensures var s1, s2 := Calls(s, k, 1), Calls(s, k, 2);
            && k in s1.crs && k in s2.crs && RestReady(s1, s1.crs[k])
            && s1.crs[k] == Record(s, s.crs[k]) && s2.crs[k] == Record(s1, s1.crs[k])
  {
    hide R.Reconcile, RestReady, Record;
    assert Calls(s, k, 1) == Call(s, k) by {
      assert Calls(s, k, 0) == s;
    }
    CallKeepsActive(s, k);
    CallKeepsActive(Call(s, k), k);
  }

  lemma Stamping(u: CR, v: CR)
    requires v == R.Validated(u).(rv := u.rv + 1)
    ensures Stamped(v) && (Registered(v) <==> Registered(u)) && (Reported(v) <==> Reported(u))
  {
    StampedIff(u);
    hide Decimal, VirtualHostName, IsNumber, NumberOf, AsksMultiplier, AsksReplicas;
  }

  lemma Reporting(u: CR, v: CR)
    requires v == u.(status := ReadyStatus(u), rv := u.rv + 1)
    ensures Reported(v) && (Registered(v) <==> Registered(u)) && (Stamped(v) <==> Stamped(u))
  {
    ReportedIff(v);
    hide Decimal, VirtualHostName, IsNumber, NumberOf, AsksMultiplier, AsksReplicas, Replicas, Multiplicador;
  }

  lemma Indexing(u: CR, v: CR, existed: bool)
    requires v == R.Indexed(u, existed).(rv := u.rv + 1) && u.spec.ruta != ""
    ensures Registered(v) <==> existed || FINALIZER in u.finalizers
    ensures (Stamped(v) <==> Stamped(u)) && (Reported(v) <==> Reported(u))
  {
    hide Decimal, VirtualHostName, IsNumber, NumberOf, AsksMultiplier, AsksReplicas;
  }

  // The call that finds deployment and proxy in place.
  lemma SecondRecord(s: R.Store, u: CR, v: CR)
    requires v == Record(s, u) && Stamped(u)
    requires DeploymentKey(u) in s.deployments && (u.spec.ruta != "" ==> Desired(u) in s.proxies)
    ensures Stamped(v) && Registered(v) && (Reported(v) <==> Reported(u) || Registered(u))
  {
    if !Registered(u) {
      Indexing(u, v, true);
    } else if !Reported(u) {
      Reporting(u, v);
    }
    hide R.Validated, R.Indexed, ReadyStatus, Desired;
  }

  lemma FirstRecord(s: R.Store, u: CR, v: CR)
    requires v == Record(s, u)
    ensures Stamped(v) && (Reported(v) || Registered(v) <==> TwoRecordsAtMost(s, u))
  {
    var existed := Desired(u) in s.proxies;
    if !Stamped(u) {
      Stamping(u, v);
    } else if DeploymentKey(u) !in s.deployments && !Reported(u) {
      Reporting(u, v);
    } else if u.spec.ruta != "" && !Indexed(u, existed) {
      Indexing(u, v, existed);
    } else if !Reported(u) {
      Reporting(u, v);
    }
    hide R.Validated, ReadyStatus, Desired, ProxyName;
  }

  lemma RecordedTwice(s: R.Store, s1: R.Store, u: CR, v: CR)
    requires v == Record(s, u) && RestReady(s1, v)
    ensures var w := Record(s1, v); Reported(w) && Registered(w) <==> TwoRecordsAtMost(s, u)
  {
    ReadyMeans(s1, v);
    FirstRecord(s, u, v);
    SecondRecord(s1, v, Record(s1, v));
    hide *;
  }

  // A resource that has everything to write is not done after two calls.
  lemma FreshResourceNeedsThree(s: R.Store, k: Key)
    requires Active(s, k) && s.crs[k].ann == NO_ANNOTATIONS && s.crs[k].status == NoStatus && s.crs[k].spec.ruta != ""
    ensures !Stage(Calls(s, k, 2), k, 3)
  {
    TwoCallsEnoughIff(s, k);
    hide Calls, Stage, R.Validated, R.Indexed, IsNumber, NumberOf, AsksMultiplier, AsksReplicas;
  }

  // ---- Invalid and deleted resources ----

  // An invalid resource with its status written.
  function Told(u: CR): CR {
    var told := Invalid("el multiplicador tiene que ser positivo");
    if u.status == told then u else u.(status := told, rv := u.rv + 1)
  }

  // The status of an invalid resource is written once, but the annotations that
  // are to say so never are: the server takes only the status from such a write.
  lemma {:induction false} InvalidCalls(s: R.Store, k: Key, n: nat)
    requires s.checked && k in s.crs && KeyOf(s.crs[k]) == k && !s.crs[k].deleting && !IsValid(s.crs[k].spec)
    ensures Calls(s, k, n) == if n == 0 then s else s.(crs := s.crs[k := Told(s.crs[k])])
    ensures Told(s.crs[k]).ann == s.crs[k].ann
  {
    hide R.Reconcile, Call, IsValid;
    if n > 0 {
      InvalidCalls(s, k, n - 1);
      OneMoreCall(s, k, n);
      hide Calls;
      InvalidCall(Calls(s, k, n - 1), k);
      assert Told(Told(s.crs[k])) == Told(s.crs[k]);
    }
  }

  lemma OneMoreCall(s: R.Store, k: Key, n: nat)
    requires n > 0 && k in Calls(s, k, n - 1).crs
    ensures Calls(s, k, n) == Call(Calls(s, k, n - 1), k)
  {
    hide R.Reconcile, Call;
  }

  lemma InvalidCall(s: R.Store, k: Key)
    requires s.checked && k in s.crs && KeyOf(s.crs[k]) == k && !s.crs[k].deleting && !IsValid(s.crs[k].spec)
    ensures Call(s, k) == s.(crs := s.crs[k := Told(s.crs[k])])
  {
    ValidIff(s.crs[k].spec);
    CurrentWrites(s, R.Invalidated(s.crs[k]));
    assert s.crs[k := s.crs[k]] == s.crs;
    hide R.UpdateStatusOrAll;
  }

  // A resource that is being deleted is cleaned up and loses the operator's
  // finalizer, and is gone if nobody else's is left.
  lemma DeletedCall(s: R.Store, k: Key)
    requires s.checked && k in s.crs && KeyOf(s.crs[k]) == k && s.crs[k].deleting
    ensures var u, t := s.crs[k], Call(s, k);
            && t == s.(crs := t.crs, proxies := R.CleanupProxy(true, s.proxies, u))
            && (if FINALIZER !in u.finalizers then t.crs == s.crs
                else if forall f :: f in u.finalizers ==> f == FINALIZER then t.crs == s.crs - {k}
                else
                  && k in t.crs && t.crs == s.crs[k := u.(finalizers := t.crs[k].finalizers, rv := u.rv + 1)]
                  && (forall f :: f in t.crs[k].finalizers <==> f in u.finalizers && f != FINALIZER))
  {
    var rest := WithoutFinalizer(s.crs[k].finalizers);
    WithoutFinalizerMembers(s.crs[k].finalizers);
    assert rest != [] ==> rest[0] in rest;
    hide R.CleanupProxy, WithoutFinalizer;
  }

  // ---- The index between calls ----

  // A call registers the resource in any case, but records where only if no other
  // write of its own comes first: the stamp, or the status of a new deployment.
  lemma CallNamesIff(s: R.Store, k: Key)
    requires Active(s, k) && s.crs[k].spec.ruta != ""
    ensures var u, t := s.crs[k], Call(s, k);
            && Active(t, k) && SameDesire(u, t.crs[k])
            && Desired(u) in t.proxies && OwnedBy(t.proxies[Desired(u)].owners, u.uid)
            && Lookup(t.proxies[Desired(u)].routes, PrefixOf(u)) == Some(ServiceName(u.name))
            && (Named(t.crs[k]) <==>
                  Named(u) || (Stamped(u) && (DeploymentKey(u) in s.deployments || Reported(u))))
            && (!Named(t.crs[k]) ==> t.crs[k].ann.proxy == u.ann.proxy && t.crs[k].ann.route == u.ann.route)
  {
    var u, t := s.crs[k], Call(s, k);
    CallKeepsActive(s, k);
    SameWishes(u, t.crs[k]);
    ReadyProxy(t, t.crs[k]);
    RecordNamesIff(s, u);
    hide Call, Record, RestReady, Active, Lookup, OwnedBy, Named, Desired, PrefixOf, ServiceName, SameDesire;
  }

  lemma SameWishes(u: CR, v: CR)
    requires SameDesire(u, v)
    ensures Desired(v) == Desired(u) && PrefixOf(v) == PrefixOf(u) && ProxyName(v) == ProxyName(u)
    ensures v.uid == u.uid && v.name == u.name && v.spec == u.spec
  {
  }

  lemma ReadyProxy(s: R.Store, u: CR)
    requires RestReady(s, u) && u.spec.ruta != ""
    ensures Desired(u) in s.proxies && OwnedBy(s.proxies[Desired(u)].owners, u.uid)
    ensures Lookup(s.proxies[Desired(u)].routes, PrefixOf(u)) == Some(ServiceName(u.name))
  {
  }

  lemma RecordNamesIff(s: R.Store, u: CR)
    requires u.spec.ruta != ""
    ensures var v := Record(s, u);
            && (Named(v) <==> Named(u) || (Stamped(u) && (DeploymentKey(u) in s.deployments || Reported(u))))
            && (!Named(v) ==> v.ann.proxy == u.ann.proxy && v.ann.route == u.ann.route)
  {
    hide Decimal, VirtualHostName;
    var indexed := R.Indexed(u, Desired(u) in s.proxies);
    assert indexed == u ==> Named(u);
  }

  // The user gives the resource another host, or another route.
  function Edited(s: R.Store, k: Key, spec: Spec): R.Store
    requires k in s.crs
  {
    s.(crs := s.crs[k := s.crs[k].(spec := spec, rv := s.crs[k].rv + 1)])
  }

  // When versions are checked the annotations are no index yet after one call: if
  // the resource is then moved to another proxy, the next call leaves the first
  // one exactly if it is the one recorded by then; otherwise the owner entry and
  // the route stay behind.
  lemma MovedBeforeRecorded(s: R.Store, k: Key, spec: Spec)
    requires Active(s, k) && s.crs[k].spec.ruta != "" && ProxyName(s.crs[k]) != ""
    requires Multiplicador(spec) > 0 && spec.ruta != "" && ProxyName(s.crs[k].(spec := spec)) != ProxyName(s.crs[k])
    ensures var u, s1 := s.crs[k], Call(s, k);
            && k in s1.crs
            && var t := Call(Edited(s1, k, spec), k);
               && (Desired(u) in t.proxies && OwnedBy(t.proxies[Desired(u)].owners, u.uid) <==>
                     s1.crs[k].ann.proxy != ProxyName(u))
               && (s1.crs[k].ann.proxy != ProxyName(u) ==>
                     Lookup(t.proxies[Desired(u)].routes, PrefixOf(u)) == Some(ServiceName(u.name)))
  {
    var u, s1 := s.crs[k], Call(s, k);
    CallNamesIff(s, k);
    var s2 := Edited(s1, k, spec);
    var v := s2.crs[k];
    assert Active(s2, k) && v.spec == spec && v.name == u.name && v.ns == u.ns && v.uid == u.uid;
    assert ProxyName(v) == ProxyName(u.(spec := spec));
    CallIs(s2, k);
    assert Call(s2, k).proxies == R.EnsureProxy(s2.checked, s1.proxies, v);
    hide Call, Record, Active, R.EnsureProxy, OwnedBy, Lookup;
    MovedAway(s2.checked, s1.proxies, u, v);
  }

  // A resource that wants another proxy leaves the one it has recorded, and only
  // that one.
  lemma MovedAway(checked: bool, proxies: map<Key, Proxy>, u: CR, v: CR)
    requires v.uid == u.uid && NsOf(v) == NsOf(u) && v.spec.ruta != ""
    requires ProxyName(v) != ProxyName(u) && ProxyName(u) != ""
    requires Desired(u) in proxies
    ensures var after := R.EnsureProxy(checked, proxies, v);
            && (v.ann.proxy == ProxyName(u) ==>
                  Desired(u) in after ==> !OwnedBy(after[Desired(u)].owners, u.uid))
            && (v.ann.proxy != ProxyName(u) ==> Desired(u) in after && after[Desired(u)] == proxies[Desired(u)])
  {
    WithoutOwnerMembers(proxies[Desired(u)].owners, u.uid);
    hide R.Merge, VirtualHostName, WithoutRoute;
  }
}
