/** What the operator brings about, said in the fields of what it stores: the
    deployment, the service and the resource's own record. */
module DesiredState {
  import opened Wrappers
  import opened Objects
  import opened ProxyLists
  import R = Reconciler
  import opened ProxySharing
  import opened DirectWrites

  // ---- Decimal text ----

  // The number that a text of digits stands for.
  function DigitsValue(digits: string): int {
    if digits == "" then 0
    else 10 * DigitsValue(digits[..|digits| - 1]) + (digits[|digits| - 1] as int - '0' as int)
  }

  // Digits, without a needless zero in front.
  predicate IsNumeral(t: string) {
    t != "" && (forall i :: 0 <= i < |t| ==> '0' <= t[i] <= '9') && (|t| > 1 ==> t[0] != '0')
  }

  predicate IsNegative(t: string) {
    t != "" && t[0] == '-'
  }

  function NumberOf(t: string): int {
    if IsNegative(t) then -DigitsValue(t[1..]) else DigitsValue(t)
  }

  predicate IsNumber(t: string) {
    if IsNegative(t) then IsNumeral(t[1..]) && t[1..] != "0" else IsNumeral(t)
  }

  lemma {:induction false} NumeralValue(t: string)
    requires IsNumeral(t)
    ensures DigitsValue(t) >= 0 && (t != "0" ==> DigitsValue(t) > 0)
    ensures |t| > 1 ==> IsNumeral(t[..|t| - 1]) && DigitsValue(t) >= 10
    ensures |t| == 1 ==> DigitsValue(t) < 10 && t[0] == ('0' as int + DigitsValue(t)) as char
  {
    if |t| > 1 {
      NumeralValue(t[..|t| - 1]);
    } else {
      assert t[..0] == "";
    }
  }

  lemma {:induction false} NumeralUnique(t: string, u: string)
    requires IsNumeral(t) && IsNumeral(u) && DigitsValue(t) == DigitsValue(u)
    ensures t == u
  {
    NumeralValue(t);
    NumeralValue(u);
    if |t| > 1 {
      NumeralUnique(t[..|t| - 1], u[..|u| - 1]);
      assert t == t[..|t| - 1] + [t[|t| - 1]] && u == u[..|u| - 1] + [u[|u| - 1]];
    }
  }

  lemma {:induction false} DecimalOfNat(n: int)
    requires n >= 0
    ensures IsNumeral(Decimal(n)) && DigitsValue(Decimal(n)) == n
  {
    if n >= 10 {
      DecimalOfNat(n / 10);
      var front := Decimal(n / 10);
      assert Decimal(n)[..|front|] == front;
      assert front == "0" ==> DigitsValue(front) == 0 by {
        assert "0"[..0] == "";
      }
    } else {
      assert Decimal(n)[..0] == "";
    }
  }

  // A text is what %d prints for a number exactly if it reads as that number and
  // has no needless zeros.
  lemma DecimalIff(t: string, n: int)
    ensures t == Decimal(n) <==> IsNumber(t) && NumberOf(t) == n
  {
    if n >= 0 {
      DecimalOfNat(n);
      if IsNumber(t) && NumberOf(t) == n {
        NumeralValue(if IsNegative(t) then t[1..] else t);
        NumeralUnique(t, Decimal(n));
      }
    } else {
      DecimalOfNat(-n);
      var d := Decimal(-n);
      assert Decimal(n) == "-" + d && ("-" + d)[1..] == d;
      if IsNumber(t) && NumberOf(t) == n {
        NumeralValue(if IsNegative(t) then t[1..] else t);
        NumeralUnique(t[1..], d);
        assert t == [t[0]] + t[1..];
      }
      assert d == "0" ==> DigitsValue(d) == 0 by {
        assert "0"[..0] == "";
      }
    }
  }

  // ---- What a spec asks for ----

  // So many replicas, as a 32-bit integer; one, if it does not say.
  predicate AsksReplicas(spec: Spec, n: int) {
    && -0x8000_0000 <= n < 0x8000_0000
    && (match spec.replicas
        case Some(asked) => (asked - n) % 0x1_0000_0000 == 0
        case None => n == 1)
  }

  // To multiply by so much; by two, if it does not say.
  predicate AsksMultiplier(spec: Spec, m: int) {
    match spec.multiplicador
    case Some(asked) => m == asked
    case None => m == 2
  }

  lemma AsksIff(spec: Spec, n: int, m: int)
    ensures AsksReplicas(spec, n) <==> n == Replicas(spec)
    ensures AsksMultiplier(spec, m) <==> m == Multiplicador(spec)
  {
  }

  // ---- The deployment ----

  ghost predicate DeploymentDesired(d: Deployment, u: CR) {
    && d.replicas.Some? && AsksReplicas(u.spec, d.replicas.value)
    && OwnedBy(d.owners, u.uid)
    && (|d.containers| > 0 ==> MultiplierSet(d.containers[0].env, u.spec))
  }

  // The first variable named MULTIPLIER is there and holds the number asked for.
  predicate MultiplierSet(env: seq<EnvVar>, spec: Spec) {
    var k := FirstEnv(env, "MULTIPLIER");
    k < |env| && IsNumber(env[k].value) && AsksMultiplier(spec, NumberOf(env[k].value))
  }

  // Nothing but the first MULTIPLIER differs, which is appended if it was missing.
  predicate OnlyMultiplier(env: seq<EnvVar>, env': seq<EnvVar>) {
    var k := FirstEnv(env, "MULTIPLIER");
    && |env'| == (if k < |env| then |env| else |env| + 1) && env'[k].name == "MULTIPLIER"
    && (forall i :: 0 <= i < |env| && i != k ==> env'[i] == env[i])
  }

  // What a reconcile leaves of a deployment that was there.
  ghost predicate DeploymentKept(d: Deployment, d': Deployment, u: CR) {
    && d'.owners == (if OwnedBy(d.owners, u.uid) then d.owners else d.owners + [Owner(u.uid, u.name, true)])
    && |d'.containers| == |d.containers|
    && (forall i :: 1 <= i < |d.containers| ==> d'.containers[i] == d.containers[i])
    && (|d.containers| > 0 ==> OnlyMultiplier(d.containers[0].env, d'.containers[0].env))
  }

  // And one it makes.
  predicate DeploymentMade(d: Deployment, u: CR) {
    && d.owners == [Owner(u.uid, u.name, true)]
    && |d.containers| == 1 && |d.containers[0].env| == 1
  }

  lemma SetEnvSets(env: seq<EnvVar>, spec: Spec)
    ensures var env' := SetEnv(env, EnvVar("MULTIPLIER", Decimal(Multiplicador(spec))));
            MultiplierSet(env', spec) && OnlyMultiplier(env, env') && (env' == env <==> MultiplierSet(env, spec))
  {
    var v := EnvVar("MULTIPLIER", Decimal(Multiplicador(spec)));
    var k, env' := FirstEnv(env, "MULTIPLIER"), SetEnv(env, v);
    assert k < |env'| && env'[k] == v && FirstEnv(env', "MULTIPLIER") == k;
    DecimalIff(v.value, Multiplicador(spec));
    AsksIff(spec, 1, NumberOf(v.value));
    if k < |env| {
      DecimalIff(env[k].value, Multiplicador(spec));
      AsksIff(spec, 1, NumberOf(env[k].value));
      hide IsNumber, NumberOf, AsksMultiplier, Multiplicador, Decimal;
      assert env' == env <==> env[k] == v;
    }
  }

  // The correction does what is asked for, and nothing to a deployment that is
  // as asked for already.
  lemma DeploymentCorrected(d: Deployment, u: CR)
    ensures var d' := R.FixDeployment(d, u);
            && DeploymentDesired(d', u) && DeploymentKept(d, d', u)
            && (d' == d <==> DeploymentDesired(d, u))
  {
    OwnedAfterWith(d.owners, ControllerOwner(u));
    AsksIff(u.spec, Replicas(u.spec), 2);
    if d.replicas.Some? {
      AsksIff(u.spec, d.replicas.value, 2);
    }
    hide AsksReplicas, MultiplierSet, OnlyMultiplier, SetEnv, Replicas, Multiplicador, OwnedBy;
    if |d.containers| > 0 {
      SetEnvSets(d.containers[0].env, u.spec);
      var c := Container(SetEnv(d.containers[0].env, EnvVar("MULTIPLIER", Decimal(Multiplicador(u.spec)))));
      assert c == d.containers[0] ==> d.containers[0 := c] == d.containers;
    }
  }

  lemma OneVariable(v: EnvVar)
    ensures SetEnv([], v) == [v]
  {
  }

  lemma DeploymentCreated(u: CR)
    ensures DeploymentDesired(R.NewDeployment(u), u) && DeploymentMade(R.NewDeployment(u), u)
  {
    SetEnvSets([], u.spec);
    AsksIff(u.spec, Replicas(u.spec), 2);
    OneVariable(EnvVar("MULTIPLIER", Decimal(Multiplicador(u.spec))));
    assert [ControllerOwner(u)][0].uid == u.uid;
    hide AsksReplicas, Replicas, MultiplierSet, SetEnv, FirstEnv, Multiplicador, Decimal, OnlyMultiplier;
  }

  // ---- The service ----

  ghost predicate ServiceDesired(v: Service, u: CR) {
    && v.selector == map["app" := "multiplicador", "multiplicador-name" := u.name + "-multiplicador"]
    && |v.ports| > 0 && v.ports[0] == 8080
    && OwnedBy(v.owners, u.uid)
  }

  ghost predicate ServiceKept(v: Service, v': Service, u: CR) {
    && v'.owners == (if OwnedBy(v.owners, u.uid) then v.owners else v.owners + [Owner(u.uid, u.name, true)])
    && v'.ports == (if |v.ports| > 0 && v.ports[0] == 8080 then v.ports else [8080])
  }

  predicate ServiceMade(v: Service, u: CR) {
    v.owners == [Owner(u.uid, u.name, true)] && v.ports == [8080]
  }

  lemma ServiceCorrected(v: Service, u: CR)
    ensures var v' := R.FixService(v, u);
            && ServiceDesired(v', u) && ServiceKept(v, v', u)
            && (v' == v <==> ServiceDesired(v, u))
  {
    OwnedAfterWith(v.owners, ControllerOwner(u));
  }

  lemma ServiceCreated(u: CR)
    ensures ServiceDesired(R.NewService(u), u) && ServiceMade(R.NewService(u), u)
  {
    assert [ControllerOwner(u)][0].uid == u.uid;
  }

  // What is desired depends on identity and spec only.
  lemma DesiredBySame(d: Deployment, v: Service, a: CR, b: CR)
    requires a.name == b.name && a.uid == b.uid && a.spec == b.spec
    ensures DeploymentDesired(d, a) == DeploymentDesired(d, b) && ServiceDesired(v, a) == ServiceDesired(v, b)
  {
  }

  // ---- What one reconcile leaves ----

  // Text annotations and status of a resource whose spec asks for too little,
  predicate MarkedInvalid(u: CR) {
    && u.ann.valid == "false" && u.ann.error == "el multiplicador tiene que ser positivo"
    && u.status == Invalid("el multiplicador tiene que ser positivo")
  }

  // and of one whose spec is valid.
  predicate Stamped(u: CR) {
    u.ann.valid == "true" && IsNumber(u.ann.multiplicador) && AsksMultiplier(u.spec, NumberOf(u.ann.multiplicador))
  }

  predicate Reported(u: CR) {
    u.status.Ready? && AsksReplicas(u.spec, u.status.replicas) && AsksMultiplier(u.spec, u.status.multiplicador)
  }

  lemma StampedIff(u: CR)
    ensures Stamped(u) <==> R.Validated(u) == u
    ensures Stamped(R.Validated(u))
  {
    DecimalIff(u.ann.multiplicador, Multiplicador(u.spec));
    DecimalIff(Decimal(Multiplicador(u.spec)), Multiplicador(u.spec));
    AsksIff(u.spec, 1, NumberOf(u.ann.multiplicador));
    AsksIff(u.spec, 1, NumberOf(Decimal(Multiplicador(u.spec))));
    hide IsNumber, NumberOf, AsksMultiplier, Multiplicador, Decimal;
  }

  lemma ReportedIff(u: CR)
    ensures Reported(u) <==> u.status == ReadyStatus(u)
  {
    if u.status.Ready? {
      AsksIff(u.spec, u.status.replicas, u.status.multiplicador);
    }
    hide AsksReplicas, AsksMultiplier;
    AsksIff(u.spec, Replicas(u.spec), Multiplicador(u.spec));
  }

  // ---- What one reconcile leaves, of any store ----

  predicate IsValid(spec: Spec) {
    spec.multiplicador.Some? ==> spec.multiplicador.value > 0
  }

  lemma ValidIff(spec: Spec)
    ensures IsValid(spec) <==> Multiplicador(spec) > 0
  {
  }

  function Namespace(u: CR): string {
    if u.ns != "" then u.ns else "default"
  }

  // One entry of a store may have changed, and it is there.
  ghost predicate OnlyAt<V>(before: map<Key, V>, after: map<Key, V>, k: Key) {
    k in after && after == before[k := after[k]]
  }

  lemma EnsureAllService(s: R.Store, u: CR)
    ensures var t := R.EnsureAll(s, u).0;
            t.services == R.EnsureService(s.services, u) && t.deployments == s.deployments
  {
    hide R.Register, R.LeaveOld, R.EnsureService, R.Indexed, R.UpdateStatusOrAll;
    if u.spec.ruta != "" {
      var left := R.LeaveOld(s.checked, s.proxies, u);
      var s1 := s.(services := R.EnsureService(s.services, u), proxies := R.Register(s.checked, left, u));
      CrWriteOnly(s1, R.Indexed(u, Desired(u) in left));
      hide R.UpdateCr;
    }
  }

  lemma SameService(services: map<Key, Service>, u: CR, v: CR)
    requires u.ns == v.ns && u.name == v.name && u.uid == v.uid
    ensures R.EnsureService(services, u) == R.EnsureService(services, v)
  {
  }

  lemma ApplyStores(s: R.Store, u: CR)
    ensures var t := R.Apply(s, u).store;
            && t.deployments == R.EnsureDeployment(s.deployments, u)
            && t.services == R.EnsureService(s.services, u)
  {
    var u1 := R.Validated(u);
    CrWriteOnly(s, u1);
    var s1 := R.UpdateCr(s, u1).store;
    var s2 := s1.(deployments := R.EnsureDeployment(s1.deployments, u));
    if DeploymentKey(u) !in s.deployments {
      var u2 := u1.(status := ReadyStatus(u));
      CrWriteOnly(s2, u2);
      EnsureAllService(R.UpdateStatusOrAll(s2, u2).store, u2);
      SameService(s.services, u, u2);
    } else {
      EnsureAllService(s2, u1);
      var (s3, u2) := R.EnsureAll(s2, u1);
      CrWriteOnly(s3, u2.(status := ReadyStatus(u)));
      SameService(s.services, u, u1);
    }
    hide R.EnsureAll, R.UpdateCr, R.UpdateStatusOrAll, R.EnsureDeployment, R.EnsureService, R.Validated, ReadyStatus;
  }

  lemma ReconcileStores(s: R.Store, u: CR)
    ensures var t := R.Reconcile(s, u).store;
            && t.deployments == (if u.deleting || !IsValid(u.spec) then s.deployments
                                 else R.EnsureDeployment(s.deployments, u))
            && t.services == (if u.deleting || !IsValid(u.spec) then s.services else R.EnsureService(s.services, u))
  {
    ValidIff(u.spec);
    if u.deleting {
      var s1 := s.(proxies := R.CleanupProxy(s.checked, s.proxies, u));
      CrWriteOnly(s1, u.(finalizers := WithoutFinalizer(u.finalizers)));
    } else if Multiplicador(u.spec) > 0 {
      ApplyStores(s, u);
    } else {
      CrWriteOnly(s, R.Invalidated(u));
    }
    hide R.Apply, R.UpdateCr, R.UpdateStatusOrAll, R.EnsureDeployment, R.EnsureService, R.CleanupProxy, R.Invalidated;
    hide IsValid, Multiplicador;
  }

  lemma EnsuredDeployment(ds: map<Key, Deployment>, u: CR)
    ensures var after, k := R.EnsureDeployment(ds, u), DeploymentKey(u);
            && OnlyAt(ds, after, k) && DeploymentDesired(after[k], u)
            && (if k in ds then DeploymentKept(ds[k], after[k], u) else DeploymentMade(after[k], u))
  {
    if DeploymentKey(u) in ds {
      DeploymentCorrected(ds[DeploymentKey(u)], u);
    }
    DeploymentCreated(u);
    hide R.FixDeployment, R.NewDeployment, DeploymentDesired, DeploymentKept, DeploymentMade, DeploymentKey;
  }

  lemma EnsuredService(vs: map<Key, Service>, u: CR)
    ensures var after, k := R.EnsureService(vs, u), ServiceKey(u);
            && OnlyAt(vs, after, k) && ServiceDesired(after[k], u)
            && (if k in vs then ServiceKept(vs[k], after[k], u) else ServiceMade(after[k], u))
  {
    if ServiceKey(u) in vs {
      ServiceCorrected(vs[ServiceKey(u)], u);
    }
    ServiceCreated(u);
    hide R.FixService, R.NewService, ServiceDesired, ServiceKept, ServiceMade, ServiceKey;
  }

  lemma KeysSpelled(u: CR)
    ensures DeploymentKey(u) == Key(Namespace(u), u.name + "-multiplicador")
    ensures ServiceKey(u) == Key(Namespace(u), u.name + "-multiplicador-svc")
    ensures ServiceName(u.name) == u.name + "-multiplicador-svc"
  {
    assert u.name + "-multiplicador" + "-svc" == u.name + "-multiplicador-svc";
  }

  // A reconcile of a valid resource leaves its deployment as asked for, corrected
  // in nothing else or made with one container and one variable; and it touches
  // no other.  Any other reconcile touches none.
  lemma ReconcileDeploys(s: R.Store, u: CR)
    ensures var after := R.Reconcile(s, u).store.deployments;
            var k := Key(Namespace(u), u.name + "-multiplicador");
            if u.deleting || !IsValid(u.spec) then after == s.deployments
            else
              && OnlyAt(s.deployments, after, k) && DeploymentDesired(after[k], u)
              && (if k in s.deployments then DeploymentKept(s.deployments[k], after[k], u)
                  else DeploymentMade(after[k], u))
  {
    ReconcileStores(s, u);
    KeysSpelled(u);
    EnsuredDeployment(s.deployments, u);
    hide *;
  }

  // The same for its service.
  lemma ReconcileServes(s: R.Store, u: CR)
    ensures var after := R.Reconcile(s, u).store.services;
            var k := Key(Namespace(u), u.name + "-multiplicador-svc");
            if u.deleting || !IsValid(u.spec) then after == s.services
            else
              && OnlyAt(s.services, after, k) && ServiceDesired(after[k], u)
              && (if k in s.services then ServiceKept(s.services[k], after[k], u) else ServiceMade(after[k], u))
  {
    ReconcileStores(s, u);
    KeysSpelled(u);
    EnsuredService(s.services, u);
    hide *;
  }

  // ---- The proxy ----

  lemma RegisterJoins(checked: bool, proxies: map<Key, Proxy>, u: CR)
    ensures var after := R.Register(checked, proxies, u);
            && Desired(u) in after && OwnedBy(after[Desired(u)].owners, u.uid)
            && Lookup(after[Desired(u)].routes, PrefixOf(u)) == Some(ServiceName(u.name))
            && (u.spec.host != "" ==> after[Desired(u)].fqdn == u.spec.host)
  {
    var after := R.Register(checked, proxies, u);
    if Desired(u) in proxies {
      var p := proxies[Desired(u)];
      OwnedAfterWith(p.owners, SharedOwner(u));
      UpsertLookup(if R.Renamed(u) then WithoutRoute(p.routes, u.ann.route) else p.routes, RouteOf(u), PrefixOf(u));
    } else {
      LookupIs([RouteOf(u)], PrefixOf(u), 0);
      assert after[Desired(u)].owners[0].uid == u.uid;
    }
  }

  // The name of a resource's proxy: with a host it is the host's, dots turned into
  // dashes, otherwise the resource's own.
  predicate NamesProxy(u: CR, name: string) {
    if u.spec.host == "" then name == u.name
    else
      && |name| == 6 + |u.spec.host| && name[..6] == "vhost-"
      && (forall i :: 0 <= i < |u.spec.host| ==>
            name[6 + i] == if u.spec.host[i] == '.' then '-' else u.spec.host[i])
  }

  lemma NamesProxyIff(u: CR, name: string)
    ensures NamesProxy(u, name) <==> name == ProxyName(u)
  {
    if u.spec.host != "" {
      var dashed := Dashed(u.spec.host);
      assert ProxyName(u) == "vhost-" + dashed && ("vhost-" + dashed)[..6] == "vhost-";
      if NamesProxy(u, name) {
        assert name == name[..6] + name[6..];
        assert name[6..] == dashed;
      }
    }
  }

  // What registration leaves of a proxy that was there: one more owner, unless it
  // was one, and the host's name, if it has a host.
  ghost predicate ProxyKept(p: Proxy, p': Proxy, u: CR) {
    && p'.owners == (if OwnedBy(p.owners, u.uid) then p.owners else p.owners + [Owner(u.uid, u.name, false)])
    && p'.fqdn == (if u.spec.host != "" then u.spec.host else p.fqdn)
  }

  predicate ProxyMade(p: Proxy, u: CR) {
    && p.owners == [Owner(u.uid, u.name, false)] && p.fqdn == u.spec.host
    && p.routes == [Route("/" + u.spec.ruta, u.name + "-multiplicador-svc")]
  }

  lemma RegisteredProxy(checked: bool, proxies: map<Key, Proxy>, u: CR)
    requires u.spec.ruta != ""
    ensures var after, k := R.EnsureProxy(checked, proxies, u), Desired(u);
            && k in after
            && (if k in proxies then ProxyKept(proxies[k], after[k], u) else ProxyMade(after[k], u))
  {
    KeysSpelled(u);
    var left := R.LeaveOld(checked, proxies, u);
    assert Desired(u) in left <==> Desired(u) in proxies;
    assert Desired(u) in left ==> left[Desired(u)] == proxies[Desired(u)];
    hide R.LeaveOld, Upsert, WithoutRoute, OwnedBy;
  }

  // A reconcile of a valid resource with a route leaves it an owner of the proxy
  // of its host, or of its own name, with its route leading to its service under
  // its host.
  lemma ReconcileRoutes(s: R.Store, u: CR, name: string)
    requires NamesProxy(u, name)
    ensures var after := R.Reconcile(s, u).store.proxies;
            var k := Key(Namespace(u), name);
            !u.deleting && IsValid(u.spec) && u.spec.ruta != "" ==>
              && k in after && OwnedBy(after[k].owners, u.uid)
              && Lookup(after[k].routes, "/" + u.spec.ruta) == Some(u.name + "-multiplicador-svc")
              && (if k in s.proxies then ProxyKept(s.proxies[k], after[k], u) else ProxyMade(after[k], u))
  {
    NamesProxyIff(u, name);
    ValidIff(u.spec);
    ReconcileProxies(s, u);
    RegisterJoins(s.checked, R.LeaveOld(s.checked, s.proxies, u), u);
    KeysSpelled(u);
    assert Desired(u) == Key(Namespace(u), name) && PrefixOf(u) == "/" + u.spec.ruta;
    hide R.Reconcile, R.LeaveOld, R.Register, R.CleanupProxy, Lookup, OwnedBy, NamesProxy, ProxyName, IsValid;
    hide Multiplicador, ServiceName, Desired, PrefixOf, ProxyKept, ProxyMade;
    if u.spec.ruta != "" {
      RegisteredProxy(s.checked, s.proxies, u);
    }
  }

  // ---- The record ----

  // What is written of a resource's own record when every write takes effect.
  ghost predicate RecordKept(u: CR, v: CR, existed: bool) {
    && v == u.(ann := v.ann, status := v.status, finalizers := v.finalizers)
    && if !IsValid(u.spec) then
         && MarkedInvalid(v) && v.finalizers == u.finalizers
         && v.ann == u.ann.(valid := v.ann.valid, error := v.ann.error)
       else
         && Stamped(v) && Reported(v)
         && (if u.spec.ruta == "" then
               v.ann == u.ann.(valid := v.ann.valid, multiplicador := v.ann.multiplicador)
               && v.finalizers == u.finalizers
             else
               && NamesProxy(u, v.ann.proxy) && v.ann.route == "/" + u.spec.ruta && v.ann.error == u.ann.error
               && v.finalizers == if existed && "multiplicador.gz.com/finalizer" !in u.finalizers
                                  then u.finalizers + ["multiplicador.gz.com/finalizer"] else u.finalizers)
  }

  lemma FinalRecord(s: R.Store, u: CR)
    requires !u.deleting
    ensures Final(s, u).Some? && RecordKept(u, Final(s, u).value, Desired(u) in s.proxies)
  {
    var v := Final(s, u).value;
    ValidIff(u.spec);
    if IsValid(u.spec) {
      StampedIff(u);
      ReportedIff(v);
      NamesProxyIff(u, ProxyName(u));
      assert Stamped(v) && v.status == ReadyStatus(v) by {
        assert v.ann.valid == R.Validated(u).ann.valid && v.ann.multiplicador == R.Validated(u).ann.multiplicador;
      }
    }
    hide IsValid, Multiplicador, Decimal, NamesProxy, ProxyName, IsNumber, NumberOf, Replicas;
  }

  // A reconcile rewrites the record of its resource only: it marks an invalid
  // one, and stamps, indexes and reports a valid one.  One that is being deleted
  // loses the operator's finalizer, and goes with its last.
  lemma ReconcileRecords(s: R.Store, u: CR, k: Key)
    requires !s.checked && k == Key(Namespace(u), u.name) && k in s.crs && s.crs[k] == u
    ensures var after := R.Reconcile(s, u).store.crs;
            if !u.deleting then
              && k in after && after == s.crs[k := after[k]] && RecordKept(u, after[k], Desired(u) in s.proxies)
            else if "multiplicador.gz.com/finalizer" !in u.finalizers then after == s.crs
            else if exists f :: f in u.finalizers && f != "multiplicador.gz.com/finalizer" then
              && k in after && after == s.crs[k := u.(finalizers := after[k].finalizers)]
              && (forall f :: f in after[k].finalizers <==>
                    f in u.finalizers && f != "multiplicador.gz.com/finalizer")
            else after == s.crs - {k}
  {
    ReconcileIsDirect(s, u);
    if u.deleting {
      WithoutFinalizerMembers(u.finalizers);
      var rest := WithoutFinalizer(u.finalizers);
      assert rest != [] ==> rest[0] in rest;
      hide R.Reconcile, WithoutFinalizer;
    } else {
      FinalRecord(s, u);
      hide R.Reconcile, Final, RecordKept;
    }
  }
}
