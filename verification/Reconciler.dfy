/** What one reconcile call does to the cluster, as functions on values.  The
    imperative operator in Cluster.dfy is proved to compute exactly these.

    A store with `checked` set is the real API server: an update is refused when
    its copy is older than the stored object, an update that changes nothing keeps
    the version, and status is a separate subresource.  With `checked` clear every
    write takes effect as given, as with the fake client of the unit tests. */
module Reconciler {
  import opened Wrappers
  import opened Objects
  import opened ProxyLists

  datatype Store = Store(checked: bool, crs: map<Key, CR>, deployments: map<Key, Deployment>,
                         services: map<Key, Service>, proxies: map<Key, Proxy>)

  // The store after a write, and whether the write was accepted.
  datatype Written = Written(store: Store, ok: bool)

  // ---- The API server's writes ----

  predicate Current(s: Store, u: CR) {
    KeyOf(u) in s.crs && (s.checked ==> s.crs[KeyOf(u)].rv == u.rv)
  }

  function UpdateCr(s: Store, u: CR): Written {
    if !Current(s, u) then Written(s, false)
    else
      var k := KeyOf(u);
      var stored := s.crs[k];
      var next := if s.checked then u.(status := stored.status) else u;
      if next.deleting && next.finalizers == [] then Written(s.(crs := s.crs - {k}), true)
      else if s.checked && next == stored then Written(s, true)
      else Written(s.(crs := s.crs[k := if s.checked then next.(rv := stored.rv + 1) else next]), true)
  }

  function UpdateStatus(s: Store, u: CR): Written {
    if !Current(s, u) then Written(s, false)
    else
      var k := KeyOf(u);
      var stored := s.crs[k];
      var next := if s.checked then stored.(status := u.status) else u;
      if s.checked && next == stored then Written(s, true)
      else Written(s.(crs := s.crs[k := if s.checked then next.(rv := stored.rv + 1) else next]), true)
  }

  // UpdateStatus, and Update when that is refused.
  function UpdateStatusOrAll(s: Store, u: CR): Written {
    var w := UpdateStatus(s, u);
    if w.ok then w else UpdateCr(s, u)
  }

  function UpdateProxy(s: Store, k: Key, p: Proxy): Written {
    if k !in s.proxies || (s.checked && s.proxies[k].rv != p.rv) then Written(s, false)
    else Written(s.(proxies := s.proxies[k := Bumped(s.checked, s.proxies[k], p)]), true)
  }

  function Bumped(checked: bool, before: Proxy, after: Proxy): Proxy {
    if checked && after != before then after.(rv := after.rv + 1) else after
  }

  // ---- The shared proxy ----

  // A proxy without a resource's owner entry and without the route it recorded.
  function Strip(p: Proxy, uid: string, route: string): Proxy {
    p.(owners := WithoutOwner(p.owners, uid),
       routes := if route == "" then p.routes else WithoutRoute(p.routes, route))
  }

  // Strip a proxy in place; one left with neither owners nor routes is deleted.
  function Detach(checked: bool, proxies: map<Key, Proxy>, k: Key, uid: string, route: string): map<Key, Proxy> {
    if k !in proxies then proxies
    else
      var p := Strip(proxies[k], uid, route);
      if p.owners == [] && p.routes == [] then proxies - {k}
      else proxies[k := Bumped(checked, proxies[k], p)]
  }

  function LeaveOld(checked: bool, proxies: map<Key, Proxy>, u: CR): map<Key, Proxy> {
    if u.ann.proxy != "" && u.ann.proxy != ProxyName(u)
    then Detach(checked, proxies, Recorded(u), u.uid, u.ann.route)
    else proxies
  }

  function NewProxy(u: CR): Proxy {
    Proxy([SharedOwner(u)], [RouteOf(u)], u.spec.host, 0)
  }

  predicate Renamed(u: CR) {
    u.ann.proxy == ProxyName(u) && u.ann.route != "" && u.ann.route != PrefixOf(u)
  }

  function Merge(p: Proxy, u: CR): Proxy {
    p.(owners := WithOwner(p.owners, SharedOwner(u)),
       routes := Upsert(if Renamed(u) then WithoutRoute(p.routes, u.ann.route) else p.routes, RouteOf(u)),
       fqdn := if u.spec.host != "" then u.spec.host else p.fqdn)
  }

  function Register(checked: bool, proxies: map<Key, Proxy>, u: CR): map<Key, Proxy> {
    var k := Desired(u);
    if k !in proxies then proxies[k := NewProxy(u)]
    else proxies[k := Bumped(checked, proxies[k], Merge(proxies[k], u))]
  }

  function EnsureProxy(checked: bool, proxies: map<Key, Proxy>, u: CR): map<Key, Proxy> {
    if u.spec.ruta == "" then proxies else Register(checked, LeaveOld(checked, proxies, u), u)
  }

  function CleanupProxy(checked: bool, proxies: map<Key, Proxy>, u: CR): map<Key, Proxy> {
    if u.ann.proxy == "" then proxies
    else Detach(checked, proxies, Recorded(u), u.uid, u.ann.route)
  }

  // ---- Deployment and service ----

  function NewDeployment(u: CR): Deployment {
    Deployment(Some(Replicas(u.spec)), [ControllerOwner(u)],
               [Container([EnvVar("MULTIPLIER", Decimal(Multiplicador(u.spec)))])])
  }

  function FixDeployment(d: Deployment, u: CR): Deployment {
    Deployment(Some(Replicas(u.spec)), WithOwner(d.owners, ControllerOwner(u)),
               if |d.containers| == 0 then d.containers
               else d.containers[0 := Container(SetEnv(d.containers[0].env,
                                                       EnvVar("MULTIPLIER", Decimal(Multiplicador(u.spec)))))])
  }

  function EnsureDeployment(ds: map<Key, Deployment>, u: CR): map<Key, Deployment> {
    var k := DeploymentKey(u);
    if k in ds then ds[k := FixDeployment(ds[k], u)] else ds[k := NewDeployment(u)]
  }

  function NewService(u: CR): Service {
    Service(Labels(u), [8080], [ControllerOwner(u)])
  }

  function FixService(v: Service, u: CR): Service {
    Service(Labels(u), if |v.ports| == 0 || v.ports[0] != 8080 then [8080] else v.ports,
            WithOwner(v.owners, ControllerOwner(u)))
  }

  function EnsureService(vs: map<Key, Service>, u: CR): map<Key, Service> {
    var k := ServiceKey(u);
    if k in vs then vs[k := FixService(vs[k], u)] else vs[k := NewService(u)]
  }

  // ---- The resource's own record ----

  function Validated(u: CR): CR {
    u.(ann := u.ann.(valid := "true", multiplicador := Decimal(Multiplicador(u.spec))))
  }

  function Invalidated(u: CR): CR {
    u.(ann := u.ann.(valid := "false", error := NOT_POSITIVE), status := Invalid(NOT_POSITIVE))
  }

  // The index entry, and the finalizer unless the proxy was just created.
  function Indexed(u: CR, existed: bool): CR {
    u.(ann := u.ann.(proxy := ProxyName(u), route := PrefixOf(u)),
       finalizers := if existed then WithFinalizer(u.finalizers) else u.finalizers)
  }

  // ---- ensureServiceAndProxy and reconcileOne ----

  function EnsureAll(s: Store, u: CR): (Store, CR) {
    var s1 := s.(services := EnsureService(s.services, u));
    if u.spec.ruta == "" then (s1, u)
    else
      var left := LeaveOld(s.checked, s1.proxies, u);
      var u1 := Indexed(u, Desired(u) in left);
      (UpdateCr(s1.(proxies := Register(s.checked, left, u)), u1).store, u1)
  }

  function Finalize(s: Store, u: CR): Written {
    var s1 := s.(proxies := CleanupProxy(s.checked, s.proxies, u));
    Written(if FINALIZER in u.finalizers
            then UpdateCr(s1, u.(finalizers := WithoutFinalizer(u.finalizers))).store else s1, true)
  }

  function Apply(s: Store, u: CR): Written {
    var u1 := Validated(u);
    var s1 := UpdateCr(s, u1).store;
    var s2 := s1.(deployments := EnsureDeployment(s1.deployments, u));
    if DeploymentKey(u) !in s.deployments then
      var u2 := u1.(status := ReadyStatus(u));
      Written(EnsureAll(UpdateStatusOrAll(s2, u2).store, u2).0, true)
    else
      var (s3, u2) := EnsureAll(s2, u1);
      Written(UpdateStatusOrAll(s3, u2.(status := ReadyStatus(u))).store, true)
  }

  function Reconcile(s: Store, u: CR): Written {
    if u.deleting then Finalize(s, u)
    else if Multiplicador(u.spec) <= 0 then UpdateStatusOrAll(s, Invalidated(u))
    else Apply(s, u)
  }

  // A polling sweep reconciles the listed copies one after the other.
  function Sweep(s: Store, items: seq<CR>): Store {
    if |items| == 0 then s
    else Reconcile(Sweep(s, items[..|items| - 1]), items[|items| - 1]).store
  }
}
