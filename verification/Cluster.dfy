/** The operator itself: it mutates its local copy of the resource, rebuilds owner
    and route lists in loops and writes them through the API server.  Every method
    is proved against the corresponding function of Reconciler. */
module Cluster {
  import opened Wrappers
  import opened Objects
  import opened ProxyLists
  import R = Reconciler

  // The local copy of a resource that a reconcile call works on.
  class Resource {
    var cr: CR

    constructor (cr: CR)
      ensures this.cr == cr
    {
      this.cr := cr;
    }

    method SetAnnotations(ann: Annotations)
      modifies this
      ensures cr == old(cr).(ann := ann)
    {
      cr := cr.(ann := ann);
    }

    method SetFinalizers(fs: seq<string>)
      modifies this
      ensures cr == old(cr).(finalizers := fs)
    {
      cr := cr.(finalizers := fs);
    }

    method SetStatus(st: Status)
      modifies this
      ensures cr == old(cr).(status := st)
    {
      cr := cr.(status := st);
    }
  }

  // ---- List loops ----

  method RemoveOwner(ors: seq<Owner>, uid: string) returns (newOrs: seq<Owner>)
    ensures newOrs == WithoutOwner(ors, uid)
  {
    newOrs := [];
    for i := 0 to |ors|
      invariant newOrs == WithoutOwner(ors[..i], uid)
    {
      assert ors[..i + 1][..i] == ors[..i];
      if ors[i].uid != uid {
        newOrs := newOrs + [ors[i]];
      }
    }
    assert ors[..|ors|] == ors;
  }

  method FindOwner(ors: seq<Owner>, uid: string) returns (found: bool)
    ensures found <==> OwnedBy(ors, uid)
  {
    found := false;
    for i := 0 to |ors|
      invariant !found && forall j :: 0 <= j < i ==> ors[j].uid != uid
    {
      if ors[i].uid == uid {
        found := true;
        break;
      }
    }
  }

  method RemoveRoute(rts: seq<Route>, prefix: string) returns (newRts: seq<Route>)
    ensures newRts == WithoutRoute(rts, prefix)
  {
    newRts := [];
    for i := 0 to |rts|
      invariant newRts == WithoutRoute(rts[..i], prefix)
    {
      assert rts[..i + 1][..i] == rts[..i];
      var keep := rts[i].prefix != prefix;
      if keep {
        newRts := newRts + [rts[i]];
      }
    }
    assert rts[..|rts|] == rts;
  }

  method ReplaceOrAppendRoute(rts: seq<Route>, route: Route) returns (routes: seq<Route>)
    ensures routes == Upsert(rts, route)
  {
    routes := rts;
    var exists_ := false;
    for i := 0 to |rts|
      invariant routes == rts && !exists_
      invariant forall j :: 0 <= j < i ==> rts[j].prefix != route.prefix
    {
      if routes[i].prefix == route.prefix {
        routes := routes[i := route];
        exists_ := true;
        break;
      }
    }
    if !exists_ {
      routes := routes + [route];
    }
  }

  method RemoveFinalizer(fs: seq<string>) returns (nf: seq<string>)
    ensures nf == WithoutFinalizer(fs)
  {
    nf := [];
    for i := 0 to |fs|
      invariant nf == WithoutFinalizer(fs[..i])
    {
      assert fs[..i + 1][..i] == fs[..i];
      if fs[i] == FINALIZER {
        continue;
      }
      nf := nf + [fs[i]];
    }
    assert fs[..|fs|] == fs;
  }

  method AddFinalizer(fs: seq<string>) returns (finals: seq<string>)
    ensures finals == WithFinalizer(fs)
  {
    finals := fs;
    var hasFinal := false;
    for i := 0 to |fs|
      invariant !hasFinal && forall j :: 0 <= j < i ==> fs[j] != FINALIZER
    {
      if fs[i] == FINALIZER {
        hasFinal := true;
        break;
      }
    }
    if !hasFinal {
      finals := finals + [FINALIZER];
    }
  }

  method SetMultiplier(env: seq<EnvVar>, value: string) returns (envs: seq<EnvVar>, changed: bool)
    ensures envs == SetEnv(env, EnvVar("MULTIPLIER", value))
    ensures changed <==> envs != env
  {
    envs, changed := env, false;
    var found := false;
    for i := 0 to |env|
      invariant envs == env && !found && !changed
      invariant forall j :: 0 <= j < i ==> env[j].name != "MULTIPLIER"
    {
      if envs[i].name == "MULTIPLIER" {
        if envs[i].value != value {
          envs := envs[i := envs[i].(value := value)];
          changed := true;
          assert envs[i] != env[i];
        }
        found := true;
        break;
      }
    }
    if !found {
      envs := envs + [EnvVar("MULTIPLIER", value)];
      changed := true;
    }
  }

  // The deployment depends on a resource's identity and spec only.
  lemma SameDeployment(ds: map<Key, Deployment>, u: CR, v: CR)
    requires u.ns == v.ns && u.name == v.name && u.uid == v.uid && u.spec == v.spec
    ensures R.EnsureDeployment(ds, u) == R.EnsureDeployment(ds, v)
  {
  }

  class Cluster {
    const checked: bool
    var crs: map<Key, CR>
    var deployments: map<Key, Deployment>
    var services: map<Key, Service>
    var proxies: map<Key, Proxy>

    ghost function View(): R.Store
      reads this
    {
      R.Store(checked, crs, deployments, services, proxies)
    }

    constructor (checked: bool)
      ensures View() == R.Store(checked, map[], map[], map[], map[])
    {
      this.checked := checked;
      crs, deployments, services, proxies := map[], map[], map[], map[];
    }

    // ---- API calls ----

    method UpdateCr(u: Resource) returns (ok: bool)
      modifies this`crs
      ensures R.Written(View(), ok) == R.UpdateCr(old(View()), u.cr)
    {
      var k := KeyOf(u.cr);
      if k !in crs || (checked && crs[k].rv != u.cr.rv) {
        return false;
      }
      var next := if checked then u.cr.(status := crs[k].status) else u.cr;
      if next.deleting && next.finalizers == [] {
        crs := crs - {k};
      } else if !checked {
        crs := crs[k := next];
      } else if next != crs[k] {
        crs := crs[k := next.(rv := crs[k].rv + 1)];
      }
      return true;
    }

    method UpdateStatus(u: Resource) returns (ok: bool)
      modifies this`crs
      ensures R.Written(View(), ok) == R.UpdateStatus(old(View()), u.cr)
    {
      var k := KeyOf(u.cr);
      if k !in crs || (checked && crs[k].rv != u.cr.rv) {
        return false;
      }
      var next := if checked then crs[k].(status := u.cr.status) else u.cr;
      if !checked {
        crs := crs[k := next];
      } else if next != crs[k] {
        crs := crs[k := next.(rv := crs[k].rv + 1)];
      }
      return true;
    }

    // A refused status write falls back on a full one.
    method UpdateStatusOrAll(u: Resource) returns (ok: bool)
      modifies this`crs
      ensures R.Written(View(), ok) == R.UpdateStatusOrAll(old(View()), u.cr)
    {
      ok := UpdateStatus(u);
      if !ok {
        ok := UpdateCr(u);
      }
    }

    method UpdateProxy(k: Key, p: Proxy) returns (ok: bool)
      modifies this`proxies
      ensures R.Written(View(), ok) == R.UpdateProxy(old(View()), k, p)
    {
      if k !in proxies || (checked && proxies[k].rv != p.rv) {
        return false;
      }
      proxies := proxies[k := R.Bumped(checked, proxies[k], p)];
      return true;
    }

    // Deleting a proxy never looks at its version.
    method DeleteProxy(k: Key)
      modifies this`proxies
      ensures proxies == old(proxies) - {k}
    {
      proxies := proxies - {k};
    }

    method CreateProxy(k: Key, p: Proxy) returns (ok: bool)
      modifies this`proxies
      ensures ok <==> k !in old(proxies)
      ensures proxies == if ok then old(proxies)[k := p] else old(proxies)
    {
      ok := k !in proxies;
      if ok {
        proxies := proxies[k := p];
      }
    }

    // ---- The shared proxy ----

    // Take a resource's owner entry and recorded route out of a proxy.
    method DetachProxy(k: Key, uid: string, prevRoute: string)
      modifies this`proxies
      ensures proxies == R.Detach(checked, old(proxies), k, uid, prevRoute)
    {
      if k !in proxies {
        return;
      }
      var oldProxy := proxies[k];
      var newOrs := RemoveOwner(oldProxy.owners, uid);
      oldProxy := oldProxy.(owners := newOrs);
      if prevRoute != "" {
        var newRts := RemoveRoute(oldProxy.routes, prevRoute);
        oldProxy := oldProxy.(routes := newRts);
      }
      var deleteOld := |oldProxy.owners| == 0 && |oldProxy.routes| == 0;
      if deleteOld {
        DeleteProxy(k);
      } else {
        var _ := UpdateProxy(k, oldProxy);
      }
    }

    method CleanupProxyForCR(u: Resource)
      modifies this`proxies
      ensures proxies == R.CleanupProxy(checked, old(proxies), u.cr)
    {
      var prevProxy, prevRoute := u.cr.ann.proxy, u.cr.ann.route;
      if prevProxy == "" {
        return;
      }
      DetachProxy(Key(NsOf(u.cr), prevProxy), u.cr.uid, prevRoute);
    }

    method EnsureService(u: Resource)
      modifies this`services
      ensures services == R.EnsureService(old(services), u.cr)
    {
      var k := ServiceKey(u.cr);
      if k !in services {
        services := services[k := Service(Labels(u.cr), [8080], [ControllerOwner(u.cr)])];
        return;
      }
      var svc := services[k];
      var updated := false;
      if svc.selector != Labels(u.cr) {
        svc := svc.(selector := Labels(u.cr));
        updated := true;
      }
      if |svc.ports| == 0 || svc.ports[0] != 8080 {
        svc := svc.(ports := [8080]);
        updated := true;
      }
      var found := FindOwner(svc.owners, u.cr.uid);
      if !found {
        svc := svc.(owners := svc.owners + [ControllerOwner(u.cr)]);
        updated := true;
      }
      if updated {
        services := services[k := svc];
      }
    }

    // Register the resource in its desired proxy, creating it when absent.
    method RegisterProxy(u: Resource) returns (existed: bool, ok: bool)
      modifies this`proxies
      ensures ok && existed == (Desired(u.cr) in old(proxies))
      ensures proxies == R.Register(checked, old(proxies), u.cr)
    {
      var k := Desired(u.cr);
      var route := RouteOf(u.cr);
      existed := k in proxies;
      if !existed {
        ok := CreateProxy(k, Proxy([SharedOwner(u.cr)], [route], u.cr.spec.host, 0));
        return;
      }
      var p := proxies[k];
      var found := FindOwner(p.owners, u.cr.uid);
      if !found {
        p := p.(owners := p.owners + [SharedOwner(u.cr)]);
      }
      var prevProxy, prevRoute := u.cr.ann.proxy, u.cr.ann.route;
      if prevProxy == k.name && prevRoute != "" && prevRoute != route.prefix {
        var newRts := RemoveRoute(p.routes, prevRoute);
        p := p.(routes := newRts);
      }
      var routes := ReplaceOrAppendRoute(p.routes, route);
      p := p.(routes := routes);
      if u.cr.spec.host != "" {
        p := p.(fqdn := u.cr.spec.host);
      }
      ok := UpdateProxy(k, p);
    }

    method EnsureServiceAndProxy(u: Resource) returns (ok: bool)
      modifies this, u
      ensures ok && (View(), u.cr) == R.EnsureAll(old(View()), old(u.cr))
    {
      EnsureService(u);
      if u.cr.spec.ruta == "" {
        return true;
      }
      var ann := u.cr.ann;
      var proxyName := ProxyName(u.cr);
      if ann.proxy != "" && ann.proxy != proxyName {
        DetachProxy(Key(NsOf(u.cr), ann.proxy), u.cr.uid, ann.route);
      }
      var existed, written := RegisterProxy(u);
      if !written {
        return false;
      }
      ann := ann.(proxy := proxyName, route := PrefixOf(u.cr));
      u.SetAnnotations(ann);
      if existed {
        var finals := AddFinalizer(u.cr.finalizers);
        u.SetFinalizers(finals);
      }
      var _ := UpdateCr(u);
      return true;
    }

    // ---- reconcileOne ----

    method EnsureDeployment(u: Resource)
      modifies this`deployments
      ensures deployments == R.EnsureDeployment(old(deployments), u.cr)
    {
      var k := DeploymentKey(u.cr);
      var replicas, value := Replicas(u.cr.spec), Decimal(Multiplicador(u.cr.spec));
      if k !in deployments {
        deployments := deployments[k := Deployment(Some(replicas), [ControllerOwner(u.cr)],
                                                   [Container([EnvVar("MULTIPLIER", value)])])];
        return;
      }
      var d := deployments[k];
      var needUpdate := false;
      if d.replicas != Some(replicas) {
        d := d.(replicas := Some(replicas));
        needUpdate := true;
      }
      var foundOwner := FindOwner(d.owners, u.cr.uid);
      if !foundOwner {
        d := d.(owners := d.owners + [ControllerOwner(u.cr)]);
        needUpdate := true;
      }
      if |d.containers| > 0 {
        var envs, changed := SetMultiplier(d.containers[0].env, value);
        if changed {
          d := d.(containers := d.containers[0 := Container(envs)]);
          needUpdate := true;
        }
      }
      assert d == R.FixDeployment(old(deployments)[k], u.cr);
      if needUpdate {
        deployments := deployments[k := d];
      }
    }

    method FinalizeOne(u: Resource)
      modifies this, u
      ensures View() == R.Finalize(old(View()), old(u.cr)).store
    {
      CleanupProxyForCR(u);
      var nf := RemoveFinalizer(u.cr.finalizers);
      WithoutFinalizerMembers(u.cr.finalizers);
      if |nf| != |u.cr.finalizers| {
        u.SetFinalizers(nf);
        var _ := UpdateCr(u);
      }
    }

    method ApplyOne(u: Resource) returns (ok: bool)
      modifies this, u
      ensures R.Written(View(), ok) == R.Apply(old(View()), old(u.cr))
    {
      ghost var u0 := u.cr;
      u.SetAnnotations(u.cr.ann.(valid := "true", multiplicador := Decimal(Multiplicador(u.cr.spec))));
      var _ := UpdateCr(u);
      var existed := DeploymentKey(u.cr) in deployments;
      SameDeployment(deployments, u0, u.cr);
      hide R.EnsureAll, R.UpdateCr, R.UpdateStatusOrAll, R.EnsureDeployment;
      EnsureDeployment(u);
      if !existed {
        u.SetStatus(ReadyStatus(u.cr));
        var _ := UpdateStatusOrAll(u);
        ok := EnsureServiceAndProxy(u);
        return;
      }
      ok := EnsureServiceAndProxy(u);
      if !ok {
        return;
      }
      u.SetStatus(ReadyStatus(u.cr));
      var _ := UpdateStatusOrAll(u);
    }

    method ReconcileOne(u: Resource) returns (ok: bool)
      modifies this, u
      ensures R.Written(View(), ok) == R.Reconcile(old(View()), old(u.cr))
    {
      var multiplicador := Multiplicador(u.cr.spec);
      if u.cr.deleting {
        FinalizeOne(u);
        return true;
      }
      if multiplicador <= 0 {
        u.SetAnnotations(u.cr.ann.(valid := "false", error := NOT_POSITIVE));
        u.SetStatus(Invalid(NOT_POSITIVE));
        ok := UpdateStatusOrAll(u);
        return;
      }
      ok := ApplyOne(u);
    }

    // One polling sweep: every listed copy is reconciled in list order.
    method ReconcileAll(items: seq<CR>)
      modifies this
      ensures View() == R.Sweep(old(View()), items)
    {
      for i := 0 to |items|
        invariant View() == R.Sweep(old(View()), items[..i])
      {
        assert items[..i + 1][..i] == items[..i];
        var u := new Resource(items[i]);
        var _ := ReconcileOne(u);
      }
      assert items[..|items|] == items;
    }
  }
}
