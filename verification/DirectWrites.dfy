/** The reconcile call when every write takes effect: one new record for the
    resource, one new value each for its deployment, service and proxies. */
module DirectWrites {
  import opened Wrappers
  import opened Objects
  import opened ProxyLists
  import R = Reconciler
  import opened ProxySharing

  // The resource as a reconcile call leaves it; None when it is gone.
  function Final(s: R.Store, u: CR): Option<CR> {
    if u.deleting then
      var u1 := u.(finalizers := WithoutFinalizer(u.finalizers));
      if FINALIZER !in u.finalizers then Some(u)
      else if u1.finalizers == [] then None
      else Some(u1)
    else if Multiplicador(u.spec) <= 0 then Some(R.Invalidated(u))
    else
      var v := R.Validated(u).(status := ReadyStatus(u));
      Some(if u.spec.ruta == "" then v else R.Indexed(v, Desired(u) in s.proxies))
  }

  function Direct(s: R.Store, u: CR): R.Store {
    var active := !u.deleting && Multiplicador(u.spec) > 0;
    R.Store(s.checked,
            if Final(s, u).Some? then s.crs[KeyOf(u) := Final(s, u).value] else s.crs - {KeyOf(u)},
            if active then R.EnsureDeployment(s.deployments, u) else s.deployments,
            if active then R.EnsureService(s.services, u) else s.services,
            if u.deleting then R.CleanupProxy(s.checked, s.proxies, u)
            else if active then R.EnsureProxy(s.checked, s.proxies, u)
            else s.proxies)
  }

  lemma LeavingKeepsDesired(checked: bool, proxies: map<Key, Proxy>, u: CR)
    ensures Desired(u) in R.LeaveOld(checked, proxies, u) <==> Desired(u) in proxies
  {
  }

  lemma DirectUpdates(s: R.Store, u: CR)
    requires !s.checked && KeyOf(u) in s.crs && !u.deleting
    ensures R.UpdateCr(s, u) == R.Written(s.(crs := s.crs[KeyOf(u) := u]), true)
    ensures R.UpdateStatusOrAll(s, u) == R.Written(s.(crs := s.crs[KeyOf(u) := u]), true)
  {
  }

  lemma DirectEnsureAll(s: R.Store, u: CR)
    requires !s.checked && KeyOf(u) in s.crs && s.crs[KeyOf(u)] == u && !u.deleting
    ensures var v := if u.spec.ruta == "" then u else R.Indexed(u, Desired(u) in s.proxies);
            R.EnsureAll(s, u) ==
            (s.(crs := s.crs[KeyOf(u) := v], services := R.EnsureService(s.services, u),
                proxies := R.EnsureProxy(s.checked, s.proxies, u)), v)
  {
    if u.spec.ruta == "" {
      assert s.crs[KeyOf(u) := u] == s.crs;
    } else {
      LeavingKeepsDesired(s.checked, s.proxies, u);
      var left := R.LeaveOld(s.checked, s.proxies, u);
      var s1 := s.(services := R.EnsureService(s.services, u), proxies := R.Register(s.checked, left, u));
      DirectUpdates(s1, R.Indexed(u, Desired(u) in left));
    }
  }

  // The resource's record is written several times over; the last write counts.
  lemma LastWriteCounts(crs: map<Key, CR>, k: Key, a: CR, b: CR, c: CR)
    ensures crs[k := a][k := b][k := c] == crs[k := c] && crs[k := a][k := b] == crs[k := b]
  {
  }

  lemma ApplyToNew(s: R.Store, u: CR)
    requires !s.checked && KeyOf(u) in s.crs && !u.deleting && Multiplicador(u.spec) > 0
    requires DeploymentKey(u) !in s.deployments
    ensures R.Apply(s, u) == R.Written(Direct(s, u), true)
  {
    var k := KeyOf(u);
    var u1 := R.Validated(u);
    var u2 := u1.(status := ReadyStatus(u));
    hide R.EnsureProxy, R.EnsureAll, R.UpdateCr, R.UpdateStatusOrAll, Decimal;
    DirectUpdates(s, u1);
    var s2 := s.(crs := s.crs[k := u1], deployments := R.EnsureDeployment(s.deployments, u));
    DirectUpdates(s2, u2);
    DirectEnsureAll(s2.(crs := s2.crs[k := u2]), u2);
    SameRegistration(s.checked, s.proxies, u, u2);
    LastWriteCounts(s.crs, k, u1, u2, Final(s, u).value);
  }

  lemma ApplyToExisting(s: R.Store, u: CR)
    requires !s.checked && KeyOf(u) in s.crs && !u.deleting && Multiplicador(u.spec) > 0
    requires DeploymentKey(u) in s.deployments
    ensures R.Apply(s, u) == R.Written(Direct(s, u), true)
  {
    var k := KeyOf(u);
    var u1 := R.Validated(u);
    hide R.EnsureProxy, R.EnsureAll, R.UpdateCr, R.UpdateStatusOrAll, Decimal;
    DirectUpdates(s, u1);
    var s2 := s.(crs := s.crs[k := u1], deployments := R.EnsureDeployment(s.deployments, u));
    DirectEnsureAll(s2, u1);
    var (s3, v) := R.EnsureAll(s2, u1);
    DirectUpdates(s3, v.(status := ReadyStatus(u)));
    SameRegistration(s.checked, s.proxies, u, u1);
    LastWriteCounts(s.crs, k, u1, v, Final(s, u).value);
  }

  lemma DirectApply(s: R.Store, u: CR)
    requires !s.checked && KeyOf(u) in s.crs && !u.deleting && Multiplicador(u.spec) > 0
    ensures R.Apply(s, u) == R.Written(Direct(s, u), true)
  {
    hide R.Apply, Direct;
    if DeploymentKey(u) !in s.deployments {
      ApplyToNew(s, u);
    } else {
      ApplyToExisting(s, u);
    }
  }

  // With every write taking effect, the call has the direct form.
  lemma ReconcileIsDirect(s: R.Store, u: CR)
    requires !s.checked && KeyOf(u) in s.crs && (u.deleting ==> s.crs[KeyOf(u)] == u)
    ensures R.Reconcile(s, u) == R.Written(Direct(s, u), true)
  {
    if u.deleting {
      assert s.crs[KeyOf(u) := u] == s.crs;
    } else if Multiplicador(u.spec) <= 0 {
      DirectUpdates(s, R.Invalidated(u));
    } else {
      DirectApply(s, u);
    }
  }
}
