/** Requests to create a VM, and what they ask of the cluster: the objects in their order, each described by the
    names, keys and paths that the program writes (actions/create_vm.go). */
module Requests {
  import opened Basics
  import opened Settings
  import opened PodSpecs
  import opened Cluster
  import opened WaitLoop

  datatype PortDef = PortDef(name: string, nodePort: int, port: int, protocol: string, targetPort: int)

  datatype ServiceDef = ServiceDef(name: string, kind: string, clusterIP: string, ports: seq<PortDef>,
                                   selector: map<string, string>, loadBalancerIP: string, externalIPs: seq<string>,
                                   backend: Json, tls: seq<Json>, rules: seq<Json>)

  datatype SecretDef = SecretDef(name: string, kind: string, annotations: map<string, string>,
                                 data: map<string, string>, stringData: map<string, string>)

  /** A network as the director sends it. */
  datatype NetworkDef = NetworkDef(kind: string, ip: string, netmask: string, gateway: string,
                                   dns: Option<seq<string>>, default: Option<seq<string>>)

  datatype Request = Request(agentId: string, image: string, context: string,
                             services: seq<ServiceDef>, secrets: seq<SecretDef>,
                             limits: Option<map<string, string>>, requests: Option<map<string, string>>,
                             replicas: Option<int>, networks: map<string, NetworkDef>, env: Option<Json>)

  datatype AgentConfig = AgentConfig(blobstore: Option<Json>, mbus: string, ntp: Option<seq<string>>)

  /** The world outside the cluster: readable files, and the parser of resource quantities. */
  datatype Outside = Outside(files: map<string, string>, quantity: string -> Option<string>)

  // ---- The objects a request asks for, in order ----

  function ServiceRef(ns: string, def: ServiceDef): Ref {
    Ref(if def.kind == "Ingress" then IngressKind else ServiceKind, ns, def.name)
  }

  /** Namespace, config map, services and ingresses as listed, secrets as listed, then the pod or the deployment. */
  function Wanted(ns: string, req: Request): (refs: seq<Ref>)
    ensures |refs| == 3 + |req.services| + |req.secrets|
  {
    [Ref(NamespaceKind, "", ns), Ref(ConfigMapKind, ns, "agent-" + req.agentId)]
    + seq(|req.services|, i requires 0 <= i < |req.services| => ServiceRef(ns, req.services[i]))
    + seq(|req.secrets|, i requires 0 <= i < |req.secrets| => Ref(SecretKind, ns, req.secrets[i].name))
    + [Ref(if req.replicas.None? then PodKind else DeploymentKind, ns, "agent-" + req.agentId)]
  }

  // ---- What each of them looks like ----

  predicate Tagged(labels: map<string, string>, id: string) {
    labels == map["bosh.cloudfoundry.org/agent-id" := id]
  }

  predicate SameNetwork(n: Network, def: NetworkDef) {
    && n.kind == def.kind && n.ip == def.ip && n.netmask == def.netmask && n.gateway == def.gateway
    && n.default.GetOr([]) == def.default.GetOr([]) && n.dns.GetOr([]) == def.dns.GetOr([]) && n.preconfigured
  }

  /** The settings that the agent will read: no disks, and the request's networks under their names. */
  ghost predicate AreSettings(s: Settings, config: AgentConfig, req: Request) {
    && s.agentId == req.agentId && s.vmName == req.agentId && s.persistent == None && s.mbus == config.mbus
    && s.ntp.GetOr([]) == config.ntp.GetOr([])
    && s.blobstore.GetOr(Null) == config.blobstore.GetOr(Null) && s.env.GetOr(Null) == req.env.GetOr(Null)
    && s.networks.GetOr(map[]).Keys == req.networks.Keys
    && forall name | name in req.networks :: SameNetwork(s.networks.GetOr(map[])[name], req.networks[name])
  }

  ghost predicate IsConfigMap(cm: ConfigMap, config: AgentConfig, req: Request) {
    && Tagged(cm.labels, req.agentId)
    && cm.data.Keys == {"instance_settings"}
    && Decode(cm.data["instance_settings"]).Some?
    && AreSettings(Decode(cm.data["instance_settings"]).value, config, req)
  }

  predicate SamePort(p: ServicePort, def: PortDef) {
    && p.name == def.name && p.protocol == def.protocol && p.port == def.port && p.nodePort == def.nodePort
    && p.targetPort == def.targetPort
  }

  predicate IsService(s: Service, def: ServiceDef, id: string) {
    && Tagged(s.labels, id)
    && (def.kind == "NodePort" ==> s.serviceType == "NodePort")
    && (def.kind == "LoadBalancer" ==> s.serviceType == "LoadBalancer" && s.loadBalancerIP == def.loadBalancerIP)
    && (def.kind != "LoadBalancer" ==> s.loadBalancerIP == "")
    && (def.kind != "NodePort" && def.kind != "LoadBalancer" ==> s.serviceType == "ClusterIP")
    && s.clusterIP == def.clusterIP && s.externalIPs == def.externalIPs
    && |s.ports| == |def.ports| && (forall i | 0 <= i < |s.ports| :: SamePort(s.ports[i], def.ports[i]))
    && (if def.selector == map[] then Tagged(s.selector, id) else s.selector == def.selector)
  }

  predicate IsIngress(i: Ingress, def: ServiceDef, id: string) {
    Tagged(i.labels, id) && i.backend == def.backend && i.tls == def.tls && i.rules == def.rules
  }

  /** The data is copied, with the content of the file it names for a `.dockercfg`. */
  predicate IsSecret(s: Secret, def: SecretDef, id: string, files: map<string, string>) {
    && Tagged(s.labels, id) && s.annotations == def.annotations && s.stringData == def.stringData
    && (def.kind == "DockerCfg" ==> s.secretType == "kubernetes.io/dockercfg")
    && (def.kind == "ServiceAccountToken" ==> s.secretType == "kubernetes.io/service-account-token")
    && (def.kind == "TLS" ==> s.secretType == "kubernetes.io/tls")
    && (def.kind !in {"DockerCfg", "ServiceAccountToken", "TLS"} ==> s.secretType == "Opaque")
    && s.data.Keys == def.data.Keys
    && (forall k | k in def.data && k != ".dockercfg" :: s.data[k] == def.data[k])
    && (".dockercfg" in def.data ==>
          def.data[".dockercfg"] in files && s.data[".dockercfg"] == files[def.data[".dockercfg"]])
  }

  /** Every entry is cpu or memory with a quantity that parses. */
  predicate Parses(list: Option<map<string, string>>, quantity: string -> Option<string>) {
    list.Some? ==> forall k | k in list.value :: (k == "cpu" || k == "memory") && quantity(list.value[k]).Some?
  }

  /** The same resources with their quantities parsed; absent if the list is. */
  predicate IsParsed(out: Option<map<string, string>>, list: Option<map<string, string>>,
                     quantity: string -> Option<string>) {
    && (out.Some? <==> list.Some?)
    && (list.Some? ==>
          && out.value.Keys == list.value.Keys
          && forall k | k in list.value :: quantity(list.value[k]) == Some(out.value[k]))
  }

  ghost predicate IsPod(p: Pod, req: Request, annotations: map<string, string>, outside: Outside) {
    && Tagged(p.labels, req.agentId) && p.annotations == annotations && p.status == PodStatus("", "", [])
    && p.spec.hostname == req.agentId
    && p.spec.volumes == [Named("bosh-config", ConfigMapSource("agent-" + req.agentId, "instance_settings",
                                                               "instance_settings.json")),
                          Named("bosh-ephemeral", EmptyDirSource)]
    && |p.spec.containers| == 1
    && var job := p.spec.containers[0];
       && job.name == "bosh-job"
       && job.mounts == [Named("bosh-config", MountPoint("/var/vcap/bosh/instance_settings.json",
                                                         "instance_settings.json")),
                         Named("bosh-ephemeral", MountPoint("/var/vcap/data", ""))]
       && job.workload.image == req.image && job.workload.command == ["/usr/sbin/runsvdir-start"]
       && job.workload.privileged && job.workload.user == 0
       && IsParsed(job.workload.limits, req.limits, outside.quantity)
       && IsParsed(job.workload.requests, req.requests, outside.quantity)
  }

  /** The object at this place of the order is what the request asks for there. Only a pod has the IP annotation. */
  ghost predicate IsWanted(i: nat, o: Object, config: AgentConfig, req: Request, ip: string, outside: Outside) {
    var services, secrets := |req.services|, |req.secrets|;
    if i == 0 then o == NamespaceObject
    else if i == 1 then o.ConfigMapObject? && IsConfigMap(o.configMap, config, req)
    else if i < 2 + services then
      var def := req.services[i - 2];
      if def.kind == "Ingress" then o.IngressObject? && IsIngress(o.ingress, def, req.agentId)
      else o.ServiceObject? && IsService(o.service, def, req.agentId)
    else if i < 2 + services + secrets then
      o.SecretObject? && IsSecret(o.secret, req.secrets[i - 2 - services], req.agentId, outside.files)
    else if req.replicas.None? then
      o.PodObject? && IsPod(o.pod, req, if ip == "" then map[] else map["bosh.cloudfoundry.org/ip-address" := ip],
                            outside)
    else
      o.DeploymentObject? && o.deployment.replicas == req.replicas.value
      && IsPod(o.deployment.template, req, map[], outside)
  }

  // ---- When a request can be carried out, and what carrying it out does ----

  /** An ingress may not be there, nor be listed before. */
  ghost predicate IngressFree(m: Store, ns: string, defs: seq<ServiceDef>, i: nat)
    requires i < |defs|
  {
    && Ref(IngressKind, ns, defs[i].name) !in m
    && forall j | 0 <= j < i && defs[j].kind == "Ingress" :: defs[j].name != defs[i].name
  }

  /** Nor may a secret. */
  ghost predicate SecretFree(m: Store, ns: string, defs: seq<SecretDef>, i: nat)
    requires i < |defs|
  {
    Ref(SecretKind, ns, defs[i].name) !in m && forall j | 0 <= j < i :: defs[j].name != defs[i].name
  }

  /** The file that a secret names, if any, can be read. */
  predicate CanRead(def: SecretDef, files: map<string, string>) {
    ".dockercfg" in def.data ==> def.data[".dockercfg"] in files
  }

  /** Nothing stands in the way: the names of the config map and the workload are free, listed ingresses and secrets
      are absent and differ from each other, files can be read and resources parsed. The namespace and the services
      may be there or not, and a service may be listed more than once. */
  ghost predicate Clear(m: Store, ns: string, req: Request, outside: Outside) {
    && Ref(ConfigMapKind, ns, "agent-" + req.agentId) !in m
    && (if req.replicas.None? then Ref(PodKind, ns, "agent-" + req.agentId) !in m
        else Ref(DeploymentKind, ns, "agent-" + req.agentId) !in m && req.replicas.value >= 1)
    && (forall i | 0 <= i < |req.services| && req.services[i].kind == "Ingress" :: IngressFree(m, ns, req.services, i))
    && (forall i | 0 <= i < |req.secrets| ::
          SecretFree(m, ns, req.secrets, i) && CanRead(req.secrets[i], outside.files))
    && Parses(req.limits, outside.quantity) && Parses(req.requests, outside.quantity)
  }

  /** The object is what the first mention of its reference in the order asks for. */
  ghost predicate Made(ns: string, r: Ref, o: Object, config: AgentConfig, req: Request, ip: string, outside: Outside) {
    exists i: nat ::
      && i < |Wanted(ns, req)| && Wanted(ns, req)[i] == r && r !in Wanted(ns, req)[..i]
      && IsWanted(i, o, config, req, ip, outside)
  }

  /** The first two objects: the namespace may be there already, the config map may not. */
  ghost predicate Grounds(m: Store, m': Store, ns: string, config: AgentConfig, req: Request, ok: bool, calm: bool) {
    var space, cm := Ref(NamespaceKind, "", ns), Ref(ConfigMapKind, ns, "agent-" + req.agentId);
    && (forall r | r in m :: r in m' && m'[r] == m[r])
    && (forall r | r in m' && r !in m :: r == space || (r == cm && IsConfigMap(m'[r].configMap, config, req)))
    && (ok ==> space in m' && cm in m' && cm !in m)
    && (calm && cm !in m ==> ok)
  }

  /** Create in a namespace. What was there stays as it was; what is there besides are the first objects of the order,
      as the request describes them; all of them on success, and on failure too if it was only the wait for a
      deployment that failed. It succeeds only if nothing stood in the way and a deployment rolled out, and then it
      does if no call is refused. */
  ghost predicate Makes(m: Store, m': Store, ns: string, config: AgentConfig, req: Request, ip: string,
                        outside: Outside, trace: seq<Item<Rollout>>, ok: bool, calm: bool) {
    var wanted, rolled := Wanted(ns, req), req.replicas.Some? ==> RollsOut(trace);
    && (forall r | r in m :: r in m' && m'[r] == m[r])
    && (exists k: nat ::
          && k <= |wanted|
          && (ok ==> k == |wanted|) && (!ok && k == |wanted| ==> req.replicas.Some?)
          && forall r :: r in m' <==> r in m || r in wanted[..k])
    && (forall r | r in m' && r !in m :: Made(ns, r, m'[r], config, req, ip, outside))
    && (ok ==> Clear(m, ns, req, outside) && rolled)
    && (Clear(m, ns, req, outside) && rolled && calm ==> ok)
  }
}
