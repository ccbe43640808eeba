/** controller/controller.go: the older controller that main.go wires up.
    It forgets every dequeued item, logs and swallows every error, and
    labels the derived objects with the workload label only. */
module LegacyController {
  import opened Wrappers
  import opened Api
  import opened Workload
  import opened Cluster
  import Pkg = Controller

  /** The labels map after the add-if-absent step: the map is created when
      nil, and the workload label is set to `name` unless already present. */
  function WithWorkloadLabel(labels: Option<Labels>, name: string): (r: Labels)
    ensures WorkloadLabel in r
    ensures r.Keys == labels.GetOr(map[]).Keys + {WorkloadLabel}
    ensures forall k :: k in labels.GetOr(map[]) ==> r[k] == labels.GetOr(map[])[k]
    ensures WorkloadLabel !in labels.GetOr(map[]) ==> r[WorkloadLabel] == name
  {
    var l := labels.GetOr(map[]);
    if WorkloadLabel !in l then l[WorkloadLabel := name] else l
  }

  /** The objects are built with nil labels, so each ends up with exactly
      the workload label. */
  lemma FreshObjectsGetOneLabel(name: string)
    ensures WithWorkloadLabel(None, name) == map[WorkloadLabel := name]
  {
  }

  /** The in-place step itself: make the map when nil, then set the label
      when absent. */
  method EnsureWorkloadLabel(labels: Option<Labels>, name: string) returns (r: Labels)
    ensures r == WithWorkloadLabel(labels, name)
  {
    r := map[];
    if labels.Some? {
      r := labels.value;
    }
    if WorkloadLabel !in r {
      r := r[WorkloadLabel := name];
    }
  }

  /** `depLabels`: the pod-template labels as they are, nil included. */
  function DepLabels(d: Deployment): (r: Option<Labels>)
    ensures r.None? <==> d.templateLabels.None?
    ensures r.Some? ==> r.value == d.templateLabels.value
  {
    d.templateLabels
  }

  /** The Service `syncDeployment` submits: named after the deployment, in
      the key's namespace, labelled with the key's name. */
  function ServiceFor(d: Deployment, ns: string, name: string): (s: Service)
    ensures s.meta.name == d.name && s.meta.namespace == ns
    ensures s.meta.labels == map[WorkloadLabel := name] && s.meta.annotations == map[]
    ensures s.selector == d.templateLabels
    ensures s.ports == [ServicePort("http", 80)]
  {
    FreshObjectsGetOneLabel(name);
    Service(ObjectMeta(d.name, ns, WithWorkloadLabel(None, name), map[]), DepLabels(d), [ServicePort("http", 80)])
  }

  /** The Ingress `createIngress` submits, from the key alone. */
  function IngressFor(ns: string, name: string): (i: Ingress)
    ensures i.meta.name == name && i.meta.namespace == ns
    ensures i.meta.labels == map[WorkloadLabel := name]
    ensures i.meta.annotations == map[RewriteAnnotation := "/"]
    ensures i.rules == [IngressRule(IngressHost, [IngressPath("/" + name, PathTypePrefix, name, 80)])]
  {
    FreshObjectsGetOneLabel(name);
    Ingress(
      ObjectMeta(name, ns, WithWorkloadLabel(None, name), map[RewriteAnnotation := "/"]),
      [IngressRule(IngressHost, [IngressPath("/" + name, PathTypePrefix, name, 80)])])
  }

  /** Shapes: the Service selects by the raw pod-template labels and has
      port http/80; the Ingress has host demo.local and one Prefix path
      "/name" to the same-named Service on port 80, which it reaches when
      the deployment carries the key's name. */
  lemma LegacyShapes(d: Deployment, ns: string, name: string)
    ensures ServiceFor(d, ns, name).selector == d.templateLabels
    ensures ServiceFor(d, ns, name).ports == [ServicePort("http", 80)]
    ensures ServiceFor(d, ns, name).meta.labels == map[WorkloadLabel := name]
    ensures IngressFor(ns, name).meta.labels == map[WorkloadLabel := name]
    ensures IngressFor(ns, name).rules == [IngressRule(IngressHost, [IngressPath("/" + name, PathTypePrefix, name, 80)])]
    ensures d.name == name ==> Pkg.RoutesTo(IngressFor(ns, name), ServiceFor(d, ns, name))
  {
    var i, s := IngressFor(ns, name), ServiceFor(d, ns, name);
    if d.name == name {
      forall r, p | 0 <= r < |i.rules| && 0 <= p < |i.rules[r].paths|
        ensures i.rules[r].paths[p].backendService == s.meta.name
        ensures exists q :: 0 <= q < |s.ports| && s.ports[q].port == i.rules[r].paths[p].backendPort
      {
        assert s.ports[0].port == 80;
      }
    }
  }

  /** What `syncDeployment` does to the cluster for a deployment the lister
      found: nothing when opted out, otherwise a Service create and then an
      Ingress create, whatever the first one's outcome. */
  function Sync(d: Deployment, ns: string, name: string, reject: CreateRequest -> Option<string>, st: Store): Store {
    if FlagSet(d, NoAutoCreation) then st
    else
      var s1 := Apply(st, reject, CreateService(ServiceFor(d, ns, name)));
      Apply(s1.store, reject, CreateIngress(IngressFor(ns, name))).store
  }

  /** An opted-out deployment causes no create call. */
  lemma SyncOptOut(d: Deployment, ns: string, name: string, reject: CreateRequest -> Option<string>, st: Store)
    requires FlagSet(d, NoAutoCreation)
    ensures Sync(d, ns, name, reject, st) == st
  {
  }

  /** Otherwise both creates are issued, Service first, even when the
      Service create fails. */
  lemma SyncBothAttempted(d: Deployment, ns: string, name: string, reject: CreateRequest -> Option<string>, st: Store)
    requires !FlagSet(d, NoAutoCreation)
    ensures Sync(d, ns, name, reject, st).log == st.log + [CreateService(ServiceFor(d, ns, name)), CreateIngress(IngressFor(ns, name))]
  {
  }

  /** The NO_AUTO_CREATION loops: every container is visited and the flag
      is set by any match, in an init or a main container. */
  method AutoCreationDisabled(d: Deployment) returns (disabled: bool)
    ensures disabled <==> FlagSet(d, NoAutoCreation)
  {
    disabled := false;
    for i := 0 to |d.initContainers|
      invariant disabled <==> exists k :: 0 <= k < i && ContainerSets(d.initContainers[k], NoAutoCreation)
    {
      var env := d.initContainers[i].env;
      ghost var before := disabled;
      for j := 0 to |env|
        invariant disabled <==> before || exists l :: 0 <= l < j && SetsVar(env[l], NoAutoCreation)
      {
        if env[j].name == NoAutoCreation && (env[j].value == "yes" || env[j].value == "true") {
          disabled := true;
        }
      }
    }
    ghost var fromInit := disabled;
    for i := 0 to |d.containers|
      invariant disabled <==> fromInit || exists k :: 0 <= k < i && ContainerSets(d.containers[k], NoAutoCreation)
    {
      var env := d.containers[i].env;
      ghost var before := disabled;
      for j := 0 to |env|
        invariant disabled <==> before || exists l :: 0 <= l < j && SetsVar(env[l], NoAutoCreation)
      {
        if env[j].name == NoAutoCreation && (env[j].value == "yes" || env[j].value == "true") {
          disabled := true;
        }
      }
    }
  }

  /** Add events only: the registration has no update handler. */
  datatype EventObject = DeploymentObj(d: Deployment) | OtherObject

  class Controller {
    const clientset: Clientset
    const queue: WorkQueue
    const oracles: Oracles

    constructor (clientset: Clientset, queue: WorkQueue, oracles: Oracles)
      ensures this.clientset == clientset && this.queue == queue && this.oracles == oracles
    {
      this.clientset, this.queue, this.oracles := clientset, queue, oracles;
    }

    /** The namespace and name processing an item arrives at: key and split
        errors are only logged, so whatever they returned is used. */
    function KeyOf(item: Item): SplitResult {
      oracles.split(oracles.keyOf(item).key)
    }

    /** `syncDeployment` dereferences the lister's answer even after an
        error, so it is only defined when the deployment is found. */
    predicate Resolvable(item: Item) {
      oracles.lister(KeyOf(item).namespace, KeyOf(item).name).Found?
    }

    /** `createIngress`: any failure, already-exists included, is returned. */
    method CreateIngressFor(ns: string, name: string) returns (err: Option<string>)
      modifies clientset
      ensures var step := Apply(old(clientset.State()), clientset.reject, CreateIngress(IngressFor(ns, name)));
        clientset.State() == step.store && (err.Some? <==> step.outcome != Created)
    {
      var ingress := Ingress(
        ObjectMeta(name, ns, map[], map[RewriteAnnotation := "/"]),
        [IngressRule(IngressHost, [IngressPath("/" + name, PathTypePrefix, name, 80)])]);
      var labels := EnsureWorkloadLabel(None, name);
      ingress := ingress.(meta := ingress.meta.(labels := labels));
      assert ingress == IngressFor(ns, name);
      var outcome := clientset.Create(CreateIngress(ingress));
      if outcome.CreateFailed? {
        return Some(outcome.reason);
      }
      if outcome.AlreadyExists? {
        return Some("already exists");
      }
      return None;
    }

    /** `syncDeployment`: never reports an error. */
    method SyncDeployment(ns: string, name: string) returns (err: Option<string>)
      requires oracles.lister(ns, name).Found?
      modifies clientset
      ensures err.None?
      ensures clientset.State() == Sync(oracles.lister(ns, name).d, ns, name, clientset.reject, old(clientset.State()))
    {
      var dep := oracles.lister(ns, name).d;
      var disabled := AutoCreationDisabled(dep);
      if disabled {
        return None;
      }
      var service := Service(ObjectMeta(dep.name, ns, map[], map[]), DepLabels(dep), [ServicePort("http", 80)]);
      var labels := EnsureWorkloadLabel(None, name);
      service := service.(meta := service.meta.(labels := labels));
      assert service == ServiceFor(dep, ns, name);
      var _ := clientset.Create(CreateService(service));
      var _ := CreateIngressFor(ns, name);
      return None;
    }

    /** `processItem`: false on shutdown; otherwise the item is synced and
        forgotten (never re-queued, never marked Done) and the result is
        true, since the sync never fails. */
    method ProcessItem() returns (more: bool)
      requires |queue.items| > 0 || queue.shuttingDown
      requires |queue.items| > 0 ==> Resolvable(queue.items[0])
      modifies queue`items, queue`calls, clientset
      ensures more == (|old(queue.items)| > 0)
      ensures !more ==> queue.items == old(queue.items) && queue.calls == old(queue.calls) && clientset.State() == old(clientset.State())
      ensures more ==>
        var item := old(queue.items)[0];
        var at := KeyOf(item);
        && queue.items == old(queue.items)[1..]
        && queue.calls == old(queue.calls) + [Forgot(item)]
        && clientset.State() == Sync(oracles.lister(at.namespace, at.name).d, at.namespace, at.name, clientset.reject, old(clientset.State()))
    {
      var item, shutdown := queue.Get();
      if shutdown {
        return false;
      }
      var k := oracles.keyOf(item);
      var sp := oracles.split(k.key);
      var err := SyncDeployment(sp.namespace, sp.name);
      if err.Some? {
        // the error branch cannot be taken: the sync never reports one
        assert false;
      }
      queue.Forget(item);
      return true;
    }

    /** `handleAdd`: a Deployment is enqueued, anything else is dropped. */
    method HandleAdd(obj: EventObject)
      modifies queue`items, queue`calls
      ensures queue.items == old(queue.items) + (if obj.DeploymentObj? then [DeploymentItem(obj.d)] else [])
      ensures queue.calls == old(queue.calls) + (if obj.DeploymentObj? then [Added(DeploymentItem(obj.d))] else [])
    {
      if !obj.DeploymentObj? {
        return;
      }
      queue.Add(DeploymentItem(obj.d));
    }

    /** `handleDel`: only logs a Deployment; it changes nothing. */
    method HandleDel(obj: EventObject) returns (logged: Option<Deployment>)
      ensures logged.Some? <==> obj.DeploymentObj?
      ensures obj.DeploymentObj? ==> logged == Some(obj.d)
    {
      if !obj.DeploymentObj? {
        return None;
      }
      return Some(obj.d);
    }
  }
}
