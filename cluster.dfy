/** The external collaborators the controllers drive: the rate-limited work
    queue and the cluster API client. Both are modelled as objects that
    record every call made on them, so that the controllers' contracts can
    say which calls happen and in what order. */
module Cluster {
  import opened Wrappers
  import opened Api

  /** A queue item (`interface{}`): the controllers enqueue Deployment
      objects with `Add` and string keys with `AddRateLimited`. */
  datatype Item = KeyItem(key: string) | DeploymentItem(d: Deployment)

  /** The bookkeeping calls a worker makes on the queue after `Get`. */
  datatype QueueCall = Added(item: Item) | RateLimited(item: Item) | Forgot(item: Item) | Finished(item: Item)

  /** The work queue. `items` is what `Get` hands out next; a rate-limited
      re-add only shows in `calls` (its delayed delivery is not modelled). */
  class WorkQueue {
    var items: seq<Item>
    var shuttingDown: bool
    var calls: seq<QueueCall>

    constructor (initial: seq<Item>)
      ensures items == initial && !shuttingDown && calls == []
    {
      items := initial;
      shuttingDown := false;
      calls := [];
    }

    /** `Get` blocks while the queue is empty and running; the model only
        calls it when it returns. It reports shutdown exactly when no item
        is left. */
    method Get() returns (item: Item, shutdown: bool)
      requires |items| > 0 || shuttingDown
      modifies this`items
      ensures shutdown == (|old(items)| == 0)
      ensures !shutdown ==> item == old(items)[0] && items == old(items)[1..]
      ensures shutdown ==> items == old(items)
    {
      if |items| == 0 {
        item, shutdown := KeyItem(""), true;
      } else {
        item, shutdown := items[0], false;
        items := items[1..];
      }
    }

    method Add(item: Item)
      modifies this`items, this`calls
      ensures items == old(items) + [item]
      ensures calls == old(calls) + [Added(item)]
    {
      items := items + [item];
      calls := calls + [Added(item)];
    }

    method AddRateLimited(item: Item)
      modifies this`calls
      ensures calls == old(calls) + [RateLimited(item)]
    {
      calls := calls + [RateLimited(item)];
    }

    method Forget(item: Item)
      modifies this`calls
      ensures calls == old(calls) + [Forgot(item)]
    {
      calls := calls + [Forgot(item)];
    }

    method Done(item: Item)
      modifies this`calls
      ensures calls == old(calls) + [Finished(item)]
    {
      calls := calls + [Finished(item)];
    }

    method ShutDown()
      modifies this`shuttingDown
      ensures shuttingDown
    {
      shuttingDown := true;
    }
  }

  /** `cache.MetaNamespaceKeyFunc`: the key and the error it returned. */
  datatype KeyResult = KeyResult(key: string, err: Option<string>)

  /** `cache.SplitMetaNamespaceKey`: namespace, name and error. */
  datatype SplitResult = SplitResult(namespace: string, name: string, err: Option<string>)

  /** `depLister.Deployments(ns).Get(name)`. */
  datatype Lookup = Found(d: Deployment) | NotFound | LookupError(reason: string)

  /** The library functions and the informer cache a controller consults,
      as opaque oracles. */
  datatype Oracles = Oracles(
    keyOf: Item -> KeyResult,
    split: string -> SplitResult,
    lister: (string, string) -> Lookup)

  datatype CreateRequest = CreateService(svc: Service) | CreateIngress(ing: Ingress)

  datatype CreateOutcome = Created | AlreadyExists | CreateFailed(reason: string)

  /** The cluster as the controllers see it: the Services and Ingresses that
      exist, and every create call issued, in order. */
  datatype Store = Store(services: map<Ref, Service>, ingresses: map<Ref, Ingress>, log: seq<CreateRequest>)

  datatype Step = Step(store: Store, outcome: CreateOutcome)

  function RequestRef(req: CreateRequest): Ref {
    match req
    case CreateService(s) => ServiceRef(s)
    case CreateIngress(i) => IngressRef(i)
  }

  predicate Exists(st: Store, req: CreateRequest) {
    match req
    case CreateService(s) => ServiceRef(s) in st.services
    case CreateIngress(i) => IngressRef(i) in st.ingresses
  }

  /** A create call against the API server. An object with the same identity
      makes it fail with already-exists and change nothing; otherwise
      `reject` (the server's other refusals, as a fixed function of the
      request) may refuse it; otherwise
      the object now exists. The call is logged in every case. */
  function Apply(st: Store, reject: CreateRequest -> Option<string>, req: CreateRequest): (r: Step)
    ensures r.store.log == st.log + [req]
    ensures r.outcome == AlreadyExists <==> Exists(st, req)
    ensures r.outcome != Created ==> r.store.services == st.services && r.store.ingresses == st.ingresses
    ensures r.outcome.CreateFailed? <==> !Exists(st, req) && reject(req).Some?
    ensures Exists(r.store, req)  || r.outcome.CreateFailed?
    ensures r.outcome == Created ==>
      && r.store.services == (if req.CreateService? then st.services[RequestRef(req) := req.svc] else st.services)
      && r.store.ingresses == (if req.CreateIngress? then st.ingresses[RequestRef(req) := req.ing] else st.ingresses)
  {
    var logged := st.(log := st.log + [req]);
    if Exists(st, req) then Step(logged, AlreadyExists)
    else if reject(req).Some? then Step(logged, CreateFailed(reject(req).value))
    else match req
      case CreateService(s) => Step(logged.(services := st.services[ServiceRef(s) := s]), Created)
      case CreateIngress(i) => Step(logged.(ingresses := st.ingresses[IngressRef(i) := i]), Created)
  }

  /** The client: its state is a `Store`; `reject` stands for the server's
      other refusals. */
  class Clientset {
    var services: map<Ref, Service>
    var ingresses: map<Ref, Ingress>
    var log: seq<CreateRequest>
    const reject: CreateRequest -> Option<string>

    constructor (existing: Store, reject: CreateRequest -> Option<string>)
      ensures State() == existing && this.reject == reject
    {
      services, ingresses, log := existing.services, existing.ingresses, existing.log;
      this.reject := reject;
    }

    function State(): Store
      reads this
    {
      Store(services, ingresses, log)
    }

    /** `CoreV1().Services(ns).Create` and `NetworkingV1().Ingresses(ns).Create`. */
    method Create(req: CreateRequest) returns (outcome: CreateOutcome)
      modifies this
      ensures Step(State(), outcome) == Apply(old(State()), reject, req)
    {
      var step := Apply(State(), reject, req);
      services, ingresses, log := step.store.services, step.store.ingresses, step.store.log;
      outcome := step.outcome;
    }
  }
}
