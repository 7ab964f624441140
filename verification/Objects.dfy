/** The Kubernetes objects the Multiplicador operator reads and writes, and the
    names it derives from a custom resource.  Text annotations and labels keep
    only the keys the operator touches; an absent annotation is the empty text. */
module Objects {
  import opened Wrappers

  // Objects are namespaced: a key is a namespace and a name.
  datatype Key = Key(ns: string, name: string)

  // An owner reference; the operator compares references by uid only.
  datatype Owner = Owner(uid: string, name: string, controller: bool)

  // An HTTPProxy route: its first condition's prefix and its service.
  datatype Route = Route(prefix: string, service: string)

  // An HTTPProxy; `fqdn` is "" when the proxy has no virtual host.
  datatype Proxy = Proxy(owners: seq<Owner>, routes: seq<Route>, fqdn: string, rv: nat)

  datatype EnvVar = EnvVar(name: string, value: string)
  datatype Container = Container(env: seq<EnvVar>)
  datatype Deployment = Deployment(replicas: Option<int>, owners: seq<Owner>, containers: seq<Container>)
  datatype Service = Service(selector: map<string, string>, ports: seq<int>, owners: seq<Owner>)

  datatype Spec = Spec(replicas: Option<int>, multiplicador: Option<int>, ruta: string, host: string)
  datatype Annotations =
    Annotations(valid: string, error: string, multiplicador: string, proxy: string, route: string)
  datatype Status = NoStatus | Invalid(error: string) | Ready(replicas: int, multiplicador: int)

  // The custom resource, with the resourceVersion its copy was read at.
  datatype CR = CR(ns: string, name: string, uid: string, spec: Spec, ann: Annotations,
                   finalizers: seq<string>, deleting: bool, status: Status, rv: nat)

  const FINALIZER := "multiplicador.gz.com/finalizer"
  const NOT_POSITIVE := "el multiplicador tiene que ser positivo"
  const NO_ANNOTATIONS := Annotations("", "", "", "", "")

  // ---- Names and desired values derived from a resource ----

  function NsOf(cr: CR): string {
    if cr.ns == "" then "default" else cr.ns
  }

  function KeyOf(cr: CR): Key {
    Key(NsOf(cr), cr.name)
  }

  function DeploymentName(name: string): string {
    name + "-multiplicador"
  }

  function ServiceName(name: string): string {
    DeploymentName(name) + "-svc"
  }

  function DeploymentKey(cr: CR): Key {
    Key(NsOf(cr), DeploymentName(cr.name))
  }

  function ServiceKey(cr: CR): Key {
    Key(NsOf(cr), ServiceName(cr.name))
  }

  // A host with every dot replaced by a dash.
  function Dashed(host: string): (r: string)
    ensures |r| == |host|
    ensures forall i :: 0 <= i < |host| ==> r[i] == if host[i] == '.' then '-' else host[i]
  {
    if host == "" then ""
    else Dashed(host[..|host| - 1]) + [if host[|host| - 1] == '.' then '-' else host[|host| - 1]]
  }

  function VirtualHostName(host: string): string {
    "vhost-" + Dashed(host)
  }

  function ProxyName(cr: CR): string {
    if cr.spec.host != "" then VirtualHostName(cr.spec.host) else cr.name
  }

  // The proxy a resource wants to be registered in, and the one it recorded.
  function Desired(cr: CR): Key {
    Key(NsOf(cr), ProxyName(cr))
  }

  function Recorded(cr: CR): Key {
    Key(NsOf(cr), cr.ann.proxy)
  }

  function Slash(ruta: string): string {
    "/" + ruta
  }

  function PrefixOf(cr: CR): string {
    Slash(cr.spec.ruta)
  }

  function RouteOf(cr: CR): Route {
    Route(PrefixOf(cr), ServiceName(cr.name))
  }

  function SharedOwner(cr: CR): Owner {
    Owner(cr.uid, cr.name, false)
  }

  function ControllerOwner(cr: CR): Owner {
    Owner(cr.uid, cr.name, true)
  }

  function LabelsFor(deployment: string): map<string, string> {
    map["app" := "multiplicador", "multiplicador-name" := deployment]
  }

  function Labels(cr: CR): map<string, string> {
    LabelsFor(DeploymentName(cr.name))
  }

  // The conversion to a 32-bit signed integer, wrapping around.
  function Int32(n: int): (r: int)
    ensures -0x8000_0000 <= r < 0x8000_0000
    ensures -0x8000_0000 <= n < 0x8000_0000 ==> r == n
    ensures (n - r) % 0x1_0000_0000 == 0
  {
    (n + 0x8000_0000) % 0x1_0000_0000 - 0x8000_0000
  }

  function Replicas(spec: Spec): int {
    if spec.replicas.Some? then Int32(spec.replicas.value) else 1
  }

  function Multiplicador(spec: Spec): int {
    if spec.multiplicador.Some? then spec.multiplicador.value else 2
  }

  // A reconcile goes as far as the proxy only for a valid resource with a route.
  predicate Registers(cr: CR) {
    Multiplicador(cr.spec) > 0 && cr.spec.ruta != ""
  }

  // Decimal text, as %d prints it.
  function Decimal(n: int): string
    decreases if n < 0 then 1 - n else n
  {
    if n < 0 then "-" + Decimal(-n)
    else if n < 10 then [('0' as int + n) as char]
    else Decimal(n / 10) + [('0' as int + n % 10) as char]
  }

  function ReadyStatus(cr: CR): Status {
    Ready(Replicas(cr.spec), Multiplicador(cr.spec))
  }

  // ---- Which resources share a proxy ----

  // Equal, but for dots and dashes, which are taken for each other.
  predicate AlikeHosts(a: string, b: string) {
    |a| == |b| &&
    forall i :: 0 <= i < |a| ==> a[i] == b[i] || (a[i] in {'.', '-'} && b[i] in {'.', '-'})
  }

  // A host's proxy name is the host without dots behind a fixed beginning, so two
  // hosts share one exactly when they are alike.
  lemma ProxyNamesAlikeIff(a: string, b: string)
    ensures VirtualHostName(a) == VirtualHostName(b) <==> AlikeHosts(a, b)
    ensures "vhost-" <= VirtualHostName(a) && '.' !in VirtualHostName(a)
  {
    assert VirtualHostName(a) == "vhost-" + Dashed(a) && VirtualHostName(b) == "vhost-" + Dashed(b);
    assert VirtualHostName(a)[6..] == Dashed(a) && VirtualHostName(b)[6..] == Dashed(b);
    if AlikeHosts(a, b) {
      assert Dashed(a) == Dashed(b);
    } else if |a| == |b| {
      var i :| 0 <= i < |a| && a[i] != b[i] && !(a[i] in {'.', '-'} && b[i] in {'.', '-'});
      assert Dashed(a)[i] != Dashed(b)[i];
    }
  }

  // Two resources with hosts want the same proxy exactly when they are in one
  // namespace and the hosts are alike; two without, when their names are equal.
  lemma ShareProxyIff(u: CR, v: CR)
    ensures u.spec.host != "" && v.spec.host != "" ==>
              (Desired(u) == Desired(v) <==> NsOf(u) == NsOf(v) && AlikeHosts(u.spec.host, v.spec.host))
    ensures u.spec.host == "" && v.spec.host == "" ==> (Desired(u) == Desired(v) <==> KeyOf(u) == KeyOf(v))
    ensures u.spec.host != "" && v.spec.host == "" ==>
              (Desired(u) == Desired(v) <==>
               NsOf(u) == NsOf(v) && "vhost-" <= v.name && '.' !in v.name && AlikeHosts(u.spec.host, v.name[6..]))
    ensures NsOf(u) == NsOf(v) <==>
              u.ns == v.ns || (u.ns in {"", "default"} && v.ns in {"", "default"})
  {
    ProxyNamesAlikeIff(u.spec.host, v.spec.host);
    if "vhost-" <= v.name && '.' !in v.name {
      var rest := v.name[6..];
      ProxyNamesAlikeIff(u.spec.host, rest);
      assert '.' !in rest && Dashed(rest) == rest && v.name == "vhost-" + rest;
    }
    hide Dashed;
  }

  // ---- Derived names are injective in the resource's name ----

  lemma ServiceNameInjective(a: string, b: string)
    requires ServiceName(a) == ServiceName(b)
    ensures a == b
  {
    assert a == ServiceName(a)[..|a|];
    assert b == ServiceName(b)[..|b|];
  }

  lemma DeploymentNameInjective(a: string, b: string)
    requires DeploymentName(a) == DeploymentName(b)
    ensures a == b
  {
    assert a == DeploymentName(a)[..|a|];
    assert b == DeploymentName(b)[..|b|];
  }
}
