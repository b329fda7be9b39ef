/** The shared Kubernetes cluster: the objects the program reads and writes, and the API calls on them.
    A call is one atomic step. The server either serves it or refuses it, and a refused call changes nothing. */
module Cluster {
  import opened Basics
  import opened Names
  import opened Settings
  import opened PodSpecs
  import opened Selectors

  // ---- Objects. An absent label or annotation map is an empty one, as the API decodes it ----

  datatype ContainerStatus = ContainerStatus(name: string, ready: bool, running: bool)

  datatype PodStatus = PodStatus(phase: string, podIP: string, containers: seq<ContainerStatus>)

  const NO_STATUS := PodStatus("", "", [])

  datatype Pod = Pod(labels: map<string, string>, annotations: map<string, string>, spec: PodSpec, status: PodStatus)

  datatype ConfigMap = ConfigMap(labels: map<string, string>, data: map<string, Document>)

  datatype Claim = Claim(labels: map<string, string>, annotations: map<string, string>, gigabytes: nat, phase: string)

  datatype ServicePort = ServicePort(name: string, protocol: string, port: int, nodePort: int, targetPort: int)

  datatype Service = Service(labels: map<string, string>, serviceType: string, clusterIP: string,
                             ports: seq<ServicePort>, externalIPs: seq<string>, loadBalancerIP: string,
                             selector: map<string, string>)

  datatype Ingress = Ingress(labels: map<string, string>, backend: Json, tls: seq<Json>, rules: seq<Json>)

  datatype Secret = Secret(labels: map<string, string>, annotations: map<string, string>,
                           data: map<string, string>, stringData: map<string, string>, secretType: string)

  datatype Deployment = Deployment(replicas: int, template: Pod)

  datatype Kind =
    | NamespaceKind | PodKind | ConfigMapKind | ClaimKind | ServiceKind | IngressKind | SecretKind | DeploymentKind

  datatype Object =
    | NamespaceObject
    | PodObject(pod: Pod)
    | ConfigMapObject(configMap: ConfigMap)
    | ClaimObject(claim: Claim)
    | ServiceObject(service: Service)
    | IngressObject(ingress: Ingress)
    | SecretObject(secret: Secret)
    | DeploymentObject(deployment: Deployment)

  function KindOf(o: Object): Kind {
    match o
    case NamespaceObject => NamespaceKind
    case PodObject(_) => PodKind
    case ConfigMapObject(_) => ConfigMapKind
    case ClaimObject(_) => ClaimKind
    case ServiceObject(_) => ServiceKind
    case IngressObject(_) => IngressKind
    case SecretObject(_) => SecretKind
    case DeploymentObject(_) => DeploymentKind
  }

  function LabelsOf(o: Object): map<string, string> {
    match o
    case NamespaceObject => map[]
    case PodObject(p) => p.labels
    case ConfigMapObject(c) => c.labels
    case ClaimObject(c) => c.labels
    case ServiceObject(s) => s.labels
    case IngressObject(i) => i.labels
    case SecretObject(s) => s.labels
    case DeploymentObject(_) => map[]
  }

  /** What an object is stored under. Namespaces live in the namespace "". */
  datatype Ref = Ref(kind: Kind, ns: string, name: string)

  type Store = m: map<Ref, Object> | forall r | r in m :: KindOf(m[r]) == r.kind witness map[]

  function PodAt(m: Store, ns: string, name: string): Option<Pod> {
    var r := Ref(PodKind, ns, name);
    if r in m then Some(m[r].pod) else None
  }

  function ConfigMapAt(m: Store, ns: string, name: string): Option<ConfigMap> {
    var r := Ref(ConfigMapKind, ns, name);
    if r in m then Some(m[r].configMap) else None
  }

  function ClaimAt(m: Store, ns: string, name: string): Option<Claim> {
    var r := Ref(ClaimKind, ns, name);
    if r in m then Some(m[r].claim) else None
  }

  predicate HasLabel(o: Object, key: string, value: string) {
    key in LabelsOf(o) && LabelsOf(o)[key] == value
  }

  /** The objects that carry the label. */
  function Labelled(m: Store, kind: Kind, ns: string, key: string, value: string): set<Ref> {
    set r | r in m && r.kind == kind && r.ns == ns && HasLabel(m[r], key, value)
  }

  /** The objects a selector lists. */
  function Listed(m: Store, kind: Kind, ns: string, selector: Selector): set<Ref> {
    set r | r in m && r.kind == kind && r.ns == ns && Matches(selector, LabelsOf(m[r]))
  }

  /** The objects that the text `key=id` leads to. */
  function Selecting(m: Store, kind: Kind, ns: string, key: string, id: string): set<Ref> {
    set r | r in m && r.kind == kind && r.ns == ns && Selected(key, id, LabelsOf(m[r]))
  }

  lemma ListedIsSelecting(m: Store, kind: Kind, ns: string, key: string, id: string)
    requires SelectorFor(key, id).Some?
    ensures Listed(m, kind, ns, SelectorFor(key, id).value) == Selecting(m, kind, ns, key, id)
  {
    hide SelectorFor, Matches;
  }

  /** For a valid label value, in one of the two identifying labels, these are the objects that carry it. */
  lemma SelectingIsLabelled(m: Store, kind: Kind, ns: string, key: string, id: string)
    requires (key == AGENT_LABEL || key == DISK_LABEL) && IsLabelValue(id)
    ensures Selecting(m, kind, ns, key, id) == Labelled(m, kind, ns, key, id)
    ensures forall o :: Selected(key, id, LabelsOf(o)) <==> HasLabel(o, key, id)
  {
    hide Selected, IsLabelValue, PlainKey;
    IdentifyingKeys();
    SelectsByEqualityExactly(key, id);
  }

  // ---- Clients ----

  datatype Client = Client(context: string, ns: string)

  /** The configured contexts, each with its namespace, and the current one. */
  datatype Provider = Provider(current: string, namespaces: map<string, string>) {
    /** The empty context stands for the current one; an unknown context is an error. */
    function New(context: string): Option<Client> {
      var resolved := if context == "" then current else context;
      if resolved in namespaces then Some(Client(resolved, namespaces[resolved])) else None
    }

    /** Where a request through a context acts: through a named context in the namespace configured for it, through
        the empty one in that of the current context. */
    ghost predicate Resolves(context: string, resolved: string, ns: string) {
      && (context == "" ==> resolved == current)
      && (context != "" ==> resolved == context)
      && resolved in namespaces && namespaces[resolved] == ns
    }

    ghost predicate Knows(context: string) {
      if context == "" then current in namespaces else context in namespaces
    }

    lemma NewResolves(context: string)
      ensures New(context).Some? <==> Knows(context)
      ensures forall resolved, ns :: Resolves(context, resolved, ns) <==> New(context) == Some(Client(resolved, ns))
    {
    }
  }

  // ---- API calls ----

  function Read(m: Store, r: Ref, served: bool): Result<Object> {
    if !served then Err(Unavailable) else if r in m then Ok(m[r]) else Err(NotFound)
  }

  function Insert(m: Store, r: Ref, o: Object, served: bool): (out: (Store, Result<()>))
    requires KindOf(o) == r.kind
  {
    if !served then (m, Err(Unavailable))
    else if r in m then (m, Err(AlreadyExists))
    else (m[r := o], Ok(()))
  }

  function Replace(m: Store, r: Ref, o: Object, served: bool): (Store, Result<()>)
    requires KindOf(o) == r.kind
  {
    if !served then (m, Err(Unavailable))
    else if r in m then (m[r := o], Ok(()))
    else (m, Err(NotFound))
  }

  function Erase(m: Store, r: Ref, served: bool): (Store, Result<()>) {
    if !served then (m, Err(Unavailable))
    else if r in m then (m - {r}, Ok(()))
    else (m, Err(NotFound))
  }

  /** A patch that sets labels of a pod and leaves the rest of it to the server. */
  function Relabel(m: Store, r: Ref, labels: map<string, string>, served: bool): (Store, Result<()>)
    requires r.kind == PodKind
  {
    if !served then (m, Err(Unavailable))
    else if r in m then (m[r := PodObject(m[r].pod.(labels := m[r].pod.labels + labels))], Ok(()))
    else (m, Err(NotFound))
  }

  /** The cluster as one caller sees it: call number `n` is served exactly when `served(n)`. */
  class Api {
    var objects: Store
    var calls: nat
    const served: nat -> bool

    constructor (objects: Store, served: nat -> bool)
      ensures this.objects == objects && this.calls == 0 && this.served == served
    {
      this.objects, this.calls, this.served := objects, 0, served;
    }

    /** No call in the range was refused. */
    ghost predicate Calm(from: nat, to: nat)
    {
      forall i | from <= i < to :: served(i)
    }

    method Get(r: Ref) returns (res: Result<Object>)
      modifies this`calls
      ensures calls == old(calls) + 1
      ensures res == Read(objects, r, served(old(calls)))
    {
      calls := calls + 1;
      res := Read(objects, r, served(calls - 1));
    }

    method Create(r: Ref, o: Object) returns (res: Result<()>)
      requires KindOf(o) == r.kind
      modifies this
      ensures calls == old(calls) + 1
      ensures (objects, res) == Insert(old(objects), r, o, served(old(calls)))
    {
      calls := calls + 1;
      var out := Insert(objects, r, o, served(calls - 1));
      objects, res := out.0, out.1;
    }

    method Update(r: Ref, o: Object) returns (res: Result<()>)
      requires KindOf(o) == r.kind
      modifies this
      ensures calls == old(calls) + 1
      ensures (objects, res) == Replace(old(objects), r, o, served(old(calls)))
    {
      calls := calls + 1;
      var out := Replace(objects, r, o, served(calls - 1));
      objects, res := out.0, out.1;
    }

    method Delete(r: Ref) returns (res: Result<()>)
      modifies this
      ensures calls == old(calls) + 1
      ensures (objects, res) == Erase(old(objects), r, served(old(calls)))
    {
      calls := calls + 1;
      var out := Erase(objects, r, served(calls - 1));
      objects, res := out.0, out.1;
    }

    method Patch(r: Ref, labels: map<string, string>) returns (res: Result<()>)
      requires r.kind == PodKind
      modifies this
      ensures calls == old(calls) + 1
      ensures (objects, res) == Relabel(old(objects), r, labels, served(old(calls)))
    {
      calls := calls + 1;
      var out := Relabel(objects, r, labels, served(calls - 1));
      objects, res := out.0, out.1;
    }

    /** Opens a watch. A selector that does not parse counts as a refusal: neither reaches the objects. */
    method Watch() returns (open: bool)
      modifies this`calls
      ensures calls == old(calls) + 1
      ensures open == served(old(calls))
    {
      calls := calls + 1;
      open := served(calls - 1);
    }

    /** Lists by selector, in an order the server chooses. */
    method List(kind: Kind, ns: string, selector: Selector) returns (res: Result<seq<Ref>>)
      modifies this`calls
      ensures calls == old(calls) + 1
      ensures res.Ok? <==> served(old(calls))
      ensures res.Err? ==> res.error == Unavailable
      ensures res.Ok? ==>
                && (forall r :: r in res.value <==> r in Listed(objects, kind, ns, selector))
                && forall i, j | 0 <= i < j < |res.value| :: res.value[i] != res.value[j]
    {
      hide Matches;
      calls := calls + 1;
      if !served(calls - 1) {
        return Err(Unavailable);
      }
      var todo, found := Listed(objects, kind, ns, selector), [];
      while todo != {}
        invariant forall r :: r in Listed(objects, kind, ns, selector) <==> r in todo || r in found
        invariant forall r | r in found :: r !in todo
        invariant forall i, j | 0 <= i < j < |found| :: found[i] != found[j]
        decreases todo
      {
        var r :| r in todo;
        todo, found := todo - {r}, found + [r];
      }
      return Ok(found);
    }
  }
}
