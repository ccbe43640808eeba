/** pkg/controller/controller.go: the reconciliation controller. A worker
    takes one item at a time from the work queue, resolves it to a
    Deployment through the lister and issues create-if-absent calls for a
    Service and then an Ingress derived from it, unless a container opts the
    deployment out with NO_AUTO_CREATION. */
module Controller {
  import opened Wrappers
  import opened Api
  import opened Workload
  import opened Cluster
  import Handlers

  // ---------------------------------------------------------------------
  // The derived resources

  /** `getDeploymentLabels`: the pod-template labels, an empty map when nil. */
  function DeploymentLabels(d: Deployment): (r: Labels)
    ensures d.templateLabels.Some? ==> r == d.templateLabels.value
    ensures d.templateLabels.None? ==> r == map[]
  {
    d.templateLabels.GetOr(map[])
  }

  function ComponentLabels(name: string, component: string): (r: Labels)
    ensures r.Keys == {WorkloadLabel, "app", "component"}
    ensures r[WorkloadLabel] == name && r["app"] == name && r["component"] == component
  {
    map[WorkloadLabel := name, "app" := name, "component" := component]
  }

  /** `getServiceLabels`: exactly the workload, app and component labels. */
  function ServiceLabels(name: string): (r: Labels)
    ensures r.Keys == {WorkloadLabel, "app", "component"}
    ensures r[WorkloadLabel] == name && r["app"] == name && r["component"] == "service"
  {
    ComponentLabels(name, "service")
  }

  /** `getIngressLabels`: exactly the workload, app and component labels. */
  function IngressLabels(name: string): (r: Labels)
    ensures r.Keys == {WorkloadLabel, "app", "component"}
    ensures r[WorkloadLabel] == name && r["app"] == name && r["component"] == "ingress"
  {
    ComponentLabels(name, "ingress")
  }

  /** The Service `createService` submits: the deployment's name and
      namespace, the service labels, the pod-template labels (empty when
      nil) as selector, one port http/80. */
  function ServiceFor(d: Deployment): (s: Service)
    ensures s.meta.name == d.name && s.meta.namespace == d.namespace
    ensures s.meta.labels == ServiceLabels(d.name) && s.meta.annotations == map[]
    ensures s.selector == Some(DeploymentLabels(d))
    ensures s.ports == [ServicePort("http", 80)]
  {
    Service(
      ObjectMeta(d.name, d.namespace, ServiceLabels(d.name), map[]),
      Some(DeploymentLabels(d)),
      [ServicePort("http", 80)])
  }

  /** The Ingress `createIngress` submits: the deployment's name and
      namespace, the ingress labels, the rewrite annotation and one rule. */
  function IngressFor(d: Deployment): (i: Ingress)
    ensures i.meta.name == d.name && i.meta.namespace == d.namespace
    ensures i.meta.labels == IngressLabels(d.name)
    ensures i.meta.annotations == map[RewriteAnnotation := "/"]
    ensures i.rules == [IngressRule(IngressHost, [IngressPath("/" + d.name, PathTypePrefix, d.name, 80)])]
  {
    Ingress(
      ObjectMeta(d.name, d.namespace, IngressLabels(d.name), map[RewriteAnnotation := "/"]),
      [IngressRule(IngressHost, [IngressPath("/" + d.name, PathTypePrefix, d.name, 80)])])
  }

  /** A Service selects a pod when its selector is non-empty and every
      selector label is on the pod. An empty selector is dropped when the
      Service is serialized, and a Service without a selector selects no
      pod. */
  predicate Selects(s: Service, podLabels: Labels) {
    && s.selector.Some? && |s.selector.value| > 0
    && forall k :: k in s.selector.value ==> k in podLabels && podLabels[k] == s.selector.value[k]
  }

  /** Every path of every rule of the Ingress reaches a port of the Service,
      which lives in the same namespace. */
  predicate RoutesTo(i: Ingress, s: Service) {
    && i.meta.namespace == s.meta.namespace
    && forall r, p :: 0 <= r < |i.rules| && 0 <= p < |i.rules[r].paths| ==>
         i.rules[r].paths[p].backendService == s.meta.name &&
         exists q :: 0 <= q < |s.ports| && s.ports[q].port == i.rules[r].paths[p].backendPort
  }

  /** Both derived objects take the deployment's identity, so re-creating
      them is idempotent. */
  lemma ExposureIdentity(d: Deployment)
    ensures ServiceRef(ServiceFor(d)) == Ref(d.namespace, d.name)
    ensures IngressRef(IngressFor(d)) == Ref(d.namespace, d.name)
  {
  }

  /** The Service: one port "http"/80, the three workload labels, the
      pod-template labels as selector, so that it picks exactly the pods
      carrying every pod-template label, and no pod at all when the
      template has no labels. */
  lemma ServiceShape(d: Deployment, podLabels: Labels)
    ensures ServiceFor(d).ports == [ServicePort("http", 80)]
    ensures ServiceFor(d).meta.labels.Keys == {WorkloadLabel, "app", "component"}
    ensures ServiceFor(d).meta.labels[WorkloadLabel] == d.name && ServiceFor(d).meta.labels["app"] == d.name
    ensures ServiceFor(d).meta.labels["component"] == "service"
    ensures ServiceFor(d).selector == Some(DeploymentLabels(d))
    ensures Selects(ServiceFor(d), podLabels) <==>
      |DeploymentLabels(d)| > 0 && forall k :: k in DeploymentLabels(d) ==> k in podLabels && podLabels[k] == DeploymentLabels(d)[k]
    ensures d.templateLabels.None? ==> !Selects(ServiceFor(d), podLabels)
  {
  }

  /** The Ingress: one rule for host demo.local with one Prefix path "/name"
      that routes to the same-named Service on port 80. */
  lemma IngressShape(d: Deployment)
    ensures |IngressFor(d).rules| == 1 && IngressFor(d).rules[0].host == IngressHost
    ensures IngressFor(d).rules[0].paths == [IngressPath("/" + d.name, PathTypePrefix, d.name, 80)]
    ensures IngressFor(d).meta.annotations == map[RewriteAnnotation := "/"]
    ensures IngressFor(d).meta.labels.Keys == {WorkloadLabel, "app", "component"}
    ensures IngressFor(d).meta.labels[WorkloadLabel] == d.name && IngressFor(d).meta.labels["app"] == d.name
    ensures IngressFor(d).meta.labels["component"] == "ingress"
    ensures RoutesTo(IngressFor(d), ServiceFor(d))
  {
    var i, s := IngressFor(d), ServiceFor(d);
    forall r, p | 0 <= r < |i.rules| && 0 <= p < |i.rules[r].paths|
      ensures i.rules[r].paths[p].backendService == s.meta.name
      ensures exists q :: 0 <= q < |s.ports| && s.ports[q].port == i.rules[r].paths[p].backendPort
    {
      assert s.ports[0].port == 80;
    }
  }

  // ---------------------------------------------------------------------
  // Reconciling one deployment

  datatype SyncError = ListerFailed(reason: string) | ServiceFailed(reason: string) | IngressFailed(reason: string)

  datatype SyncStep = SyncStep(store: Store, err: Option<SyncError>)

  /** What `syncDeployment` does to the cluster, given the lister's answer. */
  function Sync(lookup: Lookup, reject: CreateRequest -> Option<string>, st: Store): SyncStep {
    match lookup
    case NotFound => SyncStep(st, None)
    case LookupError(reason) => SyncStep(st, Some(ListerFailed(reason)))
    case Found(d) =>
      if FlagSet(d, NoAutoCreation) then SyncStep(st, None)
      else
        var s1 := Apply(st, reject, CreateService(ServiceFor(d)));
        if s1.outcome.CreateFailed? then SyncStep(s1.store, Some(ServiceFailed(s1.outcome.reason)))
        else
          var s2 := Apply(s1.store, reject, CreateIngress(IngressFor(d)));
          if s2.outcome.CreateFailed? then SyncStep(s2.store, Some(IngressFailed(s2.outcome.reason)))
          else SyncStep(s2.store, None)
  }

  /** A deployment that is gone succeeds with no create call; any other
      lister error is surfaced with no create call. */
  lemma SyncLookupFailures(reject: CreateRequest -> Option<string>, st: Store, reason: string)
    ensures Sync(NotFound, reject, st) == SyncStep(st, None)
    ensures Sync(LookupError(reason), reject, st) == SyncStep(st, Some(ListerFailed(reason)))
  {
  }

  /** An opted-out deployment succeeds with no create call. */
  lemma SyncOptOut(d: Deployment, reject: CreateRequest -> Option<string>, st: Store)
    requires FlagSet(d, NoAutoCreation)
    ensures Sync(Found(d), reject, st) == SyncStep(st, None)
  {
  }

  /** Otherwise the Service is requested first; the Ingress is requested
      after it exactly when the Service create did not fail for a reason
      other than already-exists. */
  lemma SyncCallOrder(d: Deployment, reject: CreateRequest -> Option<string>, st: Store)
    requires !FlagSet(d, NoAutoCreation)
    ensures var r := Sync(Found(d), reject, st);
      var svcFails := !Exists(st, CreateService(ServiceFor(d))) && reject(CreateService(ServiceFor(d))).Some?;
      r.store.log == st.log + [CreateService(ServiceFor(d))] + (if svcFails then [] else [CreateIngress(IngressFor(d))])
      && (svcFails <==> r.err.Some? && r.err.value.ServiceFailed?)
  {
  }

  /** Already-exists counts as success: the sync fails exactly when one of
      the two creates it issues is refused for another reason, and the
      error names the first such create. */
  lemma SyncErrors(d: Deployment, reject: CreateRequest -> Option<string>, st: Store)
    requires !FlagSet(d, NoAutoCreation)
    ensures var r := Sync(Found(d), reject, st);
      var svc, ing := CreateService(ServiceFor(d)), CreateIngress(IngressFor(d));
      && (r.err.None? <==> (Exists(st, svc) || reject(svc).None?) && (Exists(st, ing) || reject(ing).None?))
      && (r.err.Some? && r.err.value.IngressFailed? <==>
            (Exists(st, svc) || reject(svc).None?) && !Exists(st, ing) && reject(ing).Some?)
  {
    var svc, ing := CreateService(ServiceFor(d)), CreateIngress(IngressFor(d));
    var s1 := Apply(st, reject, svc);
    assert Exists(s1.store, ing) == Exists(st, ing);
  }

  /** After a successful sync that was not skipped, both objects exist; a
      second sync with the same deployment then succeeds and leaves them as
      they are, for any fixed rejection oracle. */
  lemma SyncIdempotent(d: Deployment, reject: CreateRequest -> Option<string>, st: Store)
    requires Sync(Found(d), reject, st).err.None?
    ensures var first := Sync(Found(d), reject, st).store;
      var second := Sync(Found(d), reject, first);
      && (!FlagSet(d, NoAutoCreation) ==>
            ServiceRef(ServiceFor(d)) in first.services && IngressRef(IngressFor(d)) in first.ingresses)
      && second.err.None?
      && second.store.services == first.services && second.store.ingresses == first.ingresses
  {
    if !FlagSet(d, NoAutoCreation) {
      var svc, ing := CreateService(ServiceFor(d)), CreateIngress(IngressFor(d));
      var s1 := Apply(st, reject, svc);
      var s2 := Apply(s1.store, reject, ing);
      assert Exists(s2.store, svc);
    }
  }

  /** A Service that already exists does not stop the Ingress create, and
      the sync succeeds when the Ingress is created or already there. */
  lemma SyncServiceAlreadyThere(d: Deployment, reject: CreateRequest -> Option<string>, st: Store)
    requires !FlagSet(d, NoAutoCreation) && ServiceRef(ServiceFor(d)) in st.services
    requires reject(CreateIngress(IngressFor(d))).None?
    ensures var r := Sync(Found(d), reject, st);
      r.err.None? && r.store.log == st.log + [CreateService(ServiceFor(d)), CreateIngress(IngressFor(d))]
      && IngressRef(IngressFor(d)) in r.store.ingresses
  {
  }

  // ---------------------------------------------------------------------
  // Processing one queue item

  datatype ProcessStep = ProcessStep(calls: seq<QueueCall>, store: Store)

  /** The queue calls `processNextItem` makes for a dequeued item, and the
      cluster after it. `Done` is deferred, so it comes last. */
  function Process(o: Oracles, reject: CreateRequest -> Option<string>, item: Item, st: Store): ProcessStep {
    var k := o.keyOf(item);
    if k.err.Some? then ProcessStep([Forgot(item), Finished(item)], st)
    else
      var sp := o.split(k.key);
      if sp.err.Some? then ProcessStep([Forgot(item), Finished(item)], st)
      else
        var s := Sync(o.lister(sp.namespace, sp.name), reject, st);
        if s.err.Some? then ProcessStep([RateLimited(KeyItem(k.key)), Finished(item)], s.store)
        else ProcessStep([Forgot(item), Finished(item)], s.store)
  }

  /** Every dequeued item is marked Done, last. It is Forgotten unless its
      sync failed, in which case its key is re-added rate-limited instead.
      An item whose key cannot be computed or split is not synced. */
  lemma ProcessBookkeeping(o: Oracles, reject: CreateRequest -> Option<string>, item: Item, st: Store)
    ensures var p := Process(o, reject, item, st);
      var k := o.keyOf(item);
      var synced := k.err.None? && o.split(k.key).err.None?;
      var failed := synced && Sync(o.lister(o.split(k.key).namespace, o.split(k.key).name), reject, st).err.Some?;
      && |p.calls| == 2 && p.calls[1] == Finished(item)
      && (Forgot(item) in p.calls <==> !failed)
      && (failed <==> RateLimited(KeyItem(k.key)) in p.calls)
      && (!synced ==> p.store == st)
      && (synced ==> p.store == Sync(o.lister(o.split(k.key).namespace, o.split(k.key).name), reject, st).store)
  {
  }

  // ---------------------------------------------------------------------
  // The controller object

  /** Whether an event object is a Deployment, after unwrapping the
      tombstone of a delete whose final state is unknown. */
  datatype EventObject = DeploymentObj(d: Deployment) | Tombstone(key: string, obj: EventObject) | OtherObject

  /** `shouldSkipAutoCreation`: some init or main container sets
      NO_AUTO_CREATION to "yes" or "true". */
  method ShouldSkipAutoCreation(d: Deployment) returns (skip: bool)
    ensures skip <==> FlagSet(d, NoAutoCreation)
  {
    for i := 0 to |d.initContainers|
      invariant forall k :: 0 <= k < i ==> !ContainerSets(d.initContainers[k], NoAutoCreation)
    {
      var env := d.initContainers[i].env;
      for j := 0 to |env|
        invariant forall l :: 0 <= l < j ==> !SetsVar(env[l], NoAutoCreation)
      {
        if env[j].name == NoAutoCreation && (env[j].value == "yes" || env[j].value == "true") {
          assert SetsVar(env[j], NoAutoCreation) && ContainerSets(d.initContainers[i], NoAutoCreation);
          return true;
        }
      }
    }
    for i := 0 to |d.containers|
      invariant forall k :: 0 <= k < i ==> !ContainerSets(d.containers[k], NoAutoCreation)
    {
      var env := d.containers[i].env;
      for j := 0 to |env|
        invariant forall l :: 0 <= l < j ==> !SetsVar(env[l], NoAutoCreation)
      {
        if env[j].name == NoAutoCreation && (env[j].value == "yes" || env[j].value == "true") {
          assert SetsVar(env[j], NoAutoCreation) && ContainerSets(d.containers[i], NoAutoCreation);
          return true;
        }
      }
    }
    return false;
  }

  class Controller {
    const clientset: Clientset
    const queue: WorkQueue
    const oracles: Oracles

    constructor (clientset: Clientset, queue: WorkQueue, oracles: Oracles)
      ensures this.clientset == clientset && this.queue == queue && this.oracles == oracles
    {
      this.clientset, this.queue, this.oracles := clientset, queue, oracles;
    }

    /** `createService`: already-exists is success, any other failure is
        returned. */
    method CreateServiceFor(d: Deployment) returns (err: Option<string>)
      modifies clientset
      ensures var step := Apply(old(clientset.State()), clientset.reject, CreateService(ServiceFor(d)));
        clientset.State() == step.store && err == (if step.outcome.CreateFailed? then Some(step.outcome.reason) else None)
    {
      var outcome := clientset.Create(CreateService(ServiceFor(d)));
      if outcome.CreateFailed? {
        return Some(outcome.reason);
      }
      return None;
    }

    /** `createIngress`: as for the Service. */
    method CreateIngressFor(d: Deployment) returns (err: Option<string>)
      modifies clientset
      ensures var step := Apply(old(clientset.State()), clientset.reject, CreateIngress(IngressFor(d)));
        clientset.State() == step.store && err == (if step.outcome.CreateFailed? then Some(step.outcome.reason) else None)
    {
      var outcome := clientset.Create(CreateIngress(IngressFor(d)));
      if outcome.CreateFailed? {
        return Some(outcome.reason);
      }
      return None;
    }

    /** `syncDeployment` */
    method SyncDeployment(namespace: string, name: string) returns (err: Option<SyncError>)
      modifies clientset
      ensures SyncStep(clientset.State(), err) == Sync(oracles.lister(namespace, name), clientset.reject, old(clientset.State()))
    {
      var lookup := oracles.lister(namespace, name);
      if lookup.NotFound? {
        return None;
      }
      if lookup.LookupError? {
        return Some(ListerFailed(lookup.reason));
      }
      var deployment := lookup.d;
      var skip := ShouldSkipAutoCreation(deployment);
      if skip {
        return None;
      }
      var e := CreateServiceFor(deployment);
      if e.Some? {
        return Some(ServiceFailed(e.value));
      }
      e := CreateIngressFor(deployment);
      if e.Some? {
        return Some(IngressFailed(e.value));
      }
      return None;
    }

    /** `processNextItem`: false exactly on shutdown; otherwise the calls of
        `Process` for the dequeued item. */
    method ProcessNextItem() returns (more: bool)
      requires |queue.items| > 0 || queue.shuttingDown
      modifies queue`items, queue`calls, clientset
      ensures more == (|old(queue.items)| > 0)
      ensures !more ==> queue.items == old(queue.items) && queue.calls == old(queue.calls) && clientset.State() == old(clientset.State())
      ensures more ==> queue.items == old(queue.items)[1..]
      ensures more ==>
        var p := Process(oracles, clientset.reject, old(queue.items)[0], old(clientset.State()));
        queue.calls == old(queue.calls) + p.calls && clientset.State() == p.store
    {
      var item, shutdown := queue.Get();
      if shutdown {
        return false;
      }
      var k := oracles.keyOf(item);
      if k.err.Some? {
        queue.Forget(item);
        queue.Done(item);
        return true;
      }
      var sp := oracles.split(k.key);
      if sp.err.Some? {
        queue.Forget(item);
        queue.Done(item);
        return true;
      }
      var err := SyncDeployment(sp.namespace, sp.name);
      if err.Some? {
        queue.AddRateLimited(KeyItem(k.key));
        queue.Done(item);
        return true;
      }
      queue.Forget(item);
      queue.Done(item);
      return true;
    }

    /** `handleAdd`: a Deployment is logged (which reads its replica count)
        and enqueued; anything else is dropped. */
    method HandleAdd(obj: EventObject)
      requires obj.DeploymentObj? ==> obj.d.replicas.Some?
      modifies queue`items, queue`calls
      ensures queue.items == old(queue.items) + (if obj.DeploymentObj? then [DeploymentItem(obj.d)] else [])
      ensures queue.calls == old(queue.calls) + (if obj.DeploymentObj? then [Added(DeploymentItem(obj.d))] else [])
    {
      if !obj.DeploymentObj? {
        return;
      }
      queue.Add(DeploymentItem(obj.d));
    }

    /** `handleUpdate`: when both objects are Deployments the new one is
        enqueued, whatever the diff reports. */
    method HandleUpdate(oldObj: EventObject, newObj: EventObject)
      requires oldObj.DeploymentObj? && newObj.DeploymentObj? ==> oldObj.d.replicas.Some? && newObj.d.replicas.Some?
      modifies queue`items, queue`calls
      ensures var both := oldObj.DeploymentObj? && newObj.DeploymentObj?;
        queue.items == old(queue.items) + (if both then [DeploymentItem(newObj.d)] else [])
        && queue.calls == old(queue.calls) + (if both then [Added(DeploymentItem(newObj.d))] else [])
    {
      if !oldObj.DeploymentObj? || !newObj.DeploymentObj? {
        return;
      }
      var _, _ := Handlers.HandleUpdate(oldObj.d, newObj.d);
      queue.Add(DeploymentItem(newObj.d));
    }

    /** `handleDelete`: finds the Deployment to log, directly or inside a
        tombstone. It changes nothing: delete events never enqueue. */
    method HandleDelete(obj: EventObject) returns (logged: Option<Deployment>)
      ensures logged.Some? <==> obj.DeploymentObj? || (obj.Tombstone? && obj.obj.DeploymentObj?)
      ensures obj.DeploymentObj? ==> logged == Some(obj.d)
      ensures obj.Tombstone? && obj.obj.DeploymentObj? ==> logged == Some(obj.obj.d)
    {
      if obj.DeploymentObj? {
        return Some(obj.d);
      }
      if obj.Tombstone? && obj.obj.DeploymentObj? {
        return Some(obj.obj.d);
      }
      return None;
    }
  }
}
