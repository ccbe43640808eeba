# k8s-custom-controller, modelled in Dafny

The repository has two parts:

- a Kubernetes controller that gives every Deployment a Service and an Ingress;
- a validating admission webhook that scans the images of a Deployment with trivy and refuses it when they carry critical CVEs.

Each part exists twice:

- the refactored form under `pkg/`;
- an older form that the binary still wires up (`controller/`, `validator/`, and the copy of the webhook in `main.go`).

This project models the decision logic of both forms and proves what each one does.

**Controller.** The model gives:

- which queue calls a worker makes for each dequeued item (`Done`, `Forget`, `AddRateLimited`);
- which create calls reach the cluster, and in what order;
- the exact shape of the Service and the Ingress derived from a Deployment;
- which events enqueue.

The work queue and the API client are classes. The queue records its bookkeeping calls (`Add`, `AddRateLimited`, `Forget`, `Done`); `Get` and `ShutDown` only change its items or its shutdown flag. The client records every create call. The cluster is a `Store` value: the existing objects plus the log of create calls. A create of an object that already exists fails with already-exists. Any other failure comes from a `reject` oracle: a fixed function of the request that stands for the API server's other refusals.

**Webhook.** The model covers:

- the request guards, and the HTTP status of each failure;
- the image list: init containers first, duplicates kept;
- the `BYPASS_CVE_DENIED` flag;
- the walk over trivy's decoded JSON report;
- the allow/deny decision and the response sent back.

The following are oracles, passed in as function-typed values:

- the trivy process;
- `json.Unmarshal` and `json.Marshal`;
- the informer lister;
- `cache.MetaNamespaceKeyFunc` and `cache.SplitMetaNamespaceKey`.

JSON values are a `Json` datatype.

The older scan (`validator/scancve.go`, and main.go's copy) uses unchecked type assertions. The model makes their panic an explicit `Panicked` outcome and proves exactly when it happens.

Modules:

| module | file | models |
|---|---|---|
| Wrappers | wrappers.dfy | Option, Result |
| Api | api.dfy | the Kubernetes and HTTP shapes used |
| Json | json.dfy | decoded JSON and the checked type assertions |
| Types | types.dfy | pkg/types/types.go records |
| Text | text.dfy | `strings.Join` and the `%v` renderings used in messages |
| Workload | workload.dfy | images and env flags of a Deployment |
| Cluster | cluster.dfy | the work queue, the clientset and the cluster store |
| Controller | controller.dfy | pkg/controller/controller.go |
| Handlers | handlers.dfy | pkg/controller/handlers.go |
| Scanner | scanner.dfy | pkg/webhook/scanner.go |
| Validator | validator.dfy | pkg/webhook/validator.go |
| Admission | admission.dfy | pkg/webhook/admission.go |
| LegacyController | legacy_controller.dfy | controller/controller.go |
| ScanCve | scan_cve.dfy | validator/scancve.go (and the walk of main.go) |
| LegacyValidator | legacy_validator.dfy | validator/validator.go (and the handler of main.go) |
| MainWebhook | main_webhook.dfy | main.go's webhook |

Two behaviours of the code that are easy to miss:

- A failed scan is not excluded from the per-image results of pkg/webhook/scanner.go. It stays in the list with a critical count of 0, so it can never cause a denial.
- The env flags compare their value case-sensitively, against exactly "yes" or "true"; "YES" or "True" leave a flag unset.

## Model

| member | source | states |
|---|---|---|
| Json.AsObject | pkg/webhook/scanner.go:71 | the checked assertion succeeds exactly for a JSON object |
| Json.ListAt | pkg/webhook/scanner.go:76 | the checked assertion succeeds exactly when the key holds a list (a missing key reads as nil) |
| Json.StringAt | pkg/webhook/scanner.go:87 | the checked assertion succeeds exactly when the key holds a string |
| Text.Join | validator/scancve.go:53 | joining nothing gives "", joining one part gives that part |
| Text.JoinNonEmpty | validator/scancve.go:52-54 | a join whose first part is non-empty is non-empty, so an unsafe image never has an empty finding text |
| Text.NatToString | validator/validator.go:104 | `%v` of the image count is a non-empty string of decimal digits |
| Text.GoList | validator/validator.go:104 | `%v` of the reasons is bracketed |
| Workload.ImagesOf | pkg/controller/handlers.go:78-85 | one image per container, in order |
| Workload.DeploymentImagesAt | pkg/webhook/validator.go:72-86 | entry k of the image list is the k-th init image or the (k - #init)-th main image |
| Workload.FlagSetByOneContainer | pkg/webhook/validator.go:89-109 | one matching env entry in any container sets the flag for the deployment |
| Cluster.WorkQueue.constructor | pkg/controller/controller.go:31-52 | a fresh queue holds the given items, is running and has recorded no call |
| Cluster.WorkQueue.Get | pkg/controller/controller.go:81-84 | shutdown is reported exactly when no item is left; otherwise the head item is handed out and removed |
| Cluster.WorkQueue.Add | pkg/controller/controller.go:297 | the item is appended and an Add call recorded |
| Cluster.WorkQueue.AddRateLimited | pkg/controller/controller.go:108 | a rate-limited re-add is recorded and nothing else changes |
| Cluster.WorkQueue.Forget | pkg/controller/controller.go:112 | a Forget call is recorded and nothing else changes |
| Cluster.WorkQueue.Done | pkg/controller/controller.go:85 | a Done call is recorded and nothing else changes |
| Cluster.WorkQueue.ShutDown | pkg/controller/controller.go:355-358 | the queue is shutting down |
| Cluster.Apply | pkg/controller/controller.go:193-200 | a create is always logged; it fails with already-exists exactly when the object exists, fails otherwise exactly when the server rejects it, and otherwise the object exists afterwards; on success the submitted object is stored under its reference and nothing else changes, on failure nothing changes |
| Cluster.Clientset.constructor | pkg/controller/controller.go:31-35 | the client starts from the given cluster state |
| Cluster.Clientset.Create | pkg/controller/controller.go:193 | the client's new state and the outcome are those of `Apply` on its old state |
| Controller.DeploymentLabels | pkg/controller/controller.go:260-266 | the pod-template labels, or the empty map when they are nil |
| Controller.ServiceLabels | pkg/controller/controller.go:269-275 | exactly the labels workload=name, app=name, component=service |
| Controller.IngressLabels | pkg/controller/controller.go:278-284 | exactly the labels workload=name, app=name, component=ingress |
| Controller.ServiceFor | pkg/controller/controller.go:176-191 | the deployment's name and namespace, the service labels, no annotation, the pod-template labels (empty when nil) as selector, and the single port http/80 |
| Controller.IngressFor | pkg/controller/controller.go:208-244 | the deployment's name and namespace, the ingress labels, the rewrite-target annotation "/", and one rule for demo.local with a Prefix path "/"+name to the Service of that name on port 80 |
| Controller.ExposureIdentity | pkg/controller/controller.go:176-181 | both derived objects carry the deployment's namespace and name |
| Controller.ServiceShape | pkg/controller/controller.go:176-191 | port http/80; labels workload=name, app=name, component=service; the selector is the pod-template labels (empty when nil); it picks exactly the pods carrying every pod-template label when there is one, and no pod when there is none |
| Controller.IngressShape | pkg/controller/controller.go:207-244 | one rule for host demo.local with one Prefix path "/"+name to the Service of that name on port 80; rewrite-target "/"; labels exactly workload=name, app=name, component=ingress; the Ingress routes to the derived Service |
| Controller.SyncLookupFailures | pkg/controller/controller.go:120-128 | not-found succeeds with no create call; any other lister error is returned with no create call |
| Controller.SyncOptOut | pkg/controller/controller.go:131-134 | an opted-out deployment succeeds with no create call |
| Controller.SyncCallOrder | pkg/controller/controller.go:138-146 | the Service is requested first; the Ingress is requested exactly when the Service create was not refused, and such a refusal is the error returned |
| Controller.SyncErrors | pkg/controller/controller.go:139-146 | the sync fails exactly when one of its creates is refused for a reason other than already-exists; the error names the first create refused |
| Controller.SyncIdempotent | pkg/controller/controller.go:117-149 | after a successful sync both objects exist, and a second sync succeeds and leaves them unchanged, for any fixed rejection oracle |
| Controller.SyncServiceAlreadyThere | pkg/controller/controller.go:193-198 | an existing Service does not stop the Ingress create; the sync then succeeds and the Ingress exists |
| Controller.ProcessBookkeeping | pkg/controller/controller.go:85-113 | two calls per item, with Done last; the item is forgotten exactly when its sync did not fail; on failure its key is re-added rate-limited; an item whose key cannot be computed or split is not synced |
| Controller.ShouldSkipAutoCreation | pkg/controller/controller.go:152-172 | true exactly when some init or main container sets NO_AUTO_CREATION to "yes" or "true" |
| Controller.Controller.constructor | pkg/controller/controller.go:31-52 | the controller holds the given client, queue and oracles |
| Controller.Controller.CreateServiceFor | pkg/controller/controller.go:175-204 | the cluster takes the Service create; already-exists is success, and any other refusal is returned |
| Controller.Controller.CreateIngressFor | pkg/controller/controller.go:207-257 | the same for the Ingress |
| Controller.Controller.SyncDeployment | pkg/controller/controller.go:117-149 | the new cluster state and the error are those of the `Sync` specification, starting from the old state and the lister's answer |
| Controller.Controller.ProcessNextItem | pkg/controller/controller.go:80-114 | false exactly on shutdown, with the items, the queue calls and the cluster unchanged; otherwise the head item is removed and the queue calls and cluster state are those of `Process` |
| Controller.Controller.HandleAdd | pkg/controller/controller.go:289-298 | a Deployment is enqueued (its replica count must be set, as it is logged); anything else changes nothing; the shutdown flag is never touched |
| Controller.Controller.HandleUpdate | pkg/controller/controller.go:301-312 | the new object is enqueued exactly when both objects are Deployments; the shutdown flag is never touched |
| Controller.Controller.HandleDelete | pkg/controller/controller.go:315-335 | a delete never enqueues; the Deployment it logs is found directly or inside a tombstone |
| Handlers.ExtractImages | pkg/controller/handlers.go:74-88 | init images, then main images, in declaration order; one per container |
| Handlers.StringSlicesEqual | pkg/controller/handlers.go:91-101 | true exactly when the lengths agree and each position holds the same string, i.e. sequence equality (so reflexive and symmetric); false whenever the lengths differ |
| Handlers.HandleUpdate | pkg/controller/handlers.go:46-69 | both replica counts must be set; the replica change and the image change are reported exactly when they differ |
| Scanner.IsCritical | pkg/webhook/scanner.go:92 | true exactly for an 8-letter severity each of whose letters is that of "critical" in lower or upper case |
| Scanner.StringOrEmpty | pkg/webhook/scanner.go:95-96 | the string under the key, or "" when it is missing or not a string |
| Scanner.EntryCve | pkg/webhook/scanner.go:81-102 | an entry yields a CVE exactly when it is an object with a string Severity equal to CRITICAL ignoring case; the CVE's id and url are its VulnerabilityID and PrimaryURL strings, "" when missing or not strings |
| Scanner.IsCriticalExamples | pkg/webhook/scanner.go:92 | CRITICAL, critical and Critical match; HIGH and "CRITICAL " do not |
| Scanner.EntriesCvesMembers | pkg/webhook/scanner.go:81-102 | a CVE is listed exactly when some entry yields it |
| Scanner.EntriesCvesCount | pkg/webhook/scanner.go:81-94 | the number of CVEs listed equals the number of critical entries |
| Scanner.CriticalAtSnoc | pkg/webhook/scanner.go:81-94 | one more entry adds its position to the critical positions exactly when it is CRITICAL |
| Scanner.ResultsCvesMembers | pkg/webhook/scanner.go:70-104 | a CVE is listed exactly when some well-formed result has an entry yielding it |
| Scanner.SkipsMalformedResult | pkg/webhook/scanner.go:71-79 | a non-object result, or one whose Vulnerabilities is not a list, adds nothing |
| Scanner.ParseTrivyOutput | pkg/webhook/scanner.go:51-112 | an undecodable report is an unsafe error with nothing found; otherwise no error, the CVEs of the report in encounter order, a count equal to their number, and safe exactly when there are none |
| Scanner.ScanOfConsistent | pkg/webhook/scanner.go:26-112 | every scan result has count = number of CVEs; a failure is unsafe with count 0 |
| Scanner.ScanImage | pkg/webhook/scanner.go:26-48 | the result of the scan specification for the image |
| Scanner.CveMaps | pkg/webhook/scanner.go:124-130 | one {id, url} map per CVE, in order |
| Scanner.ScanAll | pkg/webhook/scanner.go:115-143 | one summary per image, in order |
| Scanner.FailedScanCountsZero | pkg/webhook/scanner.go:41-45 | a failed scan keeps its entry, with count 0 and no CVE |
| Scanner.ScanImages | pkg/webhook/scanner.go:115-143 | one result per image in order, with the image's name, its critical count and its CVEs as id/url maps |
| Validator.ExtractImages | pkg/webhook/validator.go:72-86 | init images, then main images, duplicates kept |
| Validator.ShouldBypassCVE | pkg/webhook/validator.go:89-109 | true exactly when some init or main container sets BYPASS_CVE_DENIED to "yes" or "true" |
| Validator.HasCriticalCVEs | pkg/webhook/validator.go:112-119 | true exactly when some result has a positive critical count; false for no results |
| Validator.DecisionRule | pkg/webhook/validator.go:52-66 | DENIED exactly when some image has a critical CVE and there is no bypass; ALLOWED otherwise |
| Validator.BypassKeepsFindings | pkg/webhook/validator.go:45-53 | the output's images are the scanner's results, unchanged and in order, and its name and namespace are the deployment's |
| Validator.SidecarScenario | pkg/webhook/validator.go:27-69 | a clean app image with a sidecar that has two critical CVEs is denied, and allowed with the same counts under an init-container bypass |
| Validator.CreateResponse | pkg/webhook/validator.go:122-135 | echoes the TypeMeta and request UID, with the serialized output as message |
| Validator.CreateErrorResponse | pkg/webhook/validator.go:138-152 | a refusal with code 400 and message "prefix: error" |
| Validator.ValidateDeployment | pkg/webhook/validator.go:27-69 | the UID and TypeMeta are echoed; an undecodable object is refused with 400 before any scan; otherwise allowed follows the decision, and the message is the serialized output |
| Admission.ParseRequest | pkg/webhook/admission.go:83-109 | succeeds exactly for an application/json request whose body is read, non-empty and decodes to a review with a Request; the checks go in that order |
| Admission.HandleValidation | pkg/webhook/admission.go:55-80 | a parse error is answered 400 with its text without consulting the validator; otherwise the validator's review is written, or 500 when it cannot be serialized |
| LegacyController.WithWorkloadLabel | controller/controller.go:141-149 | the existing labels are kept, the workload label is added, and it is set to the name when it was absent |
| LegacyController.FreshObjectsGetOneLabel | controller/controller.go:208-216 | starting from nil labels, the only label is workload=name |
| LegacyController.EnsureWorkloadLabel | controller/controller.go:141-149 | the in-place update yields the labels of `WithWorkloadLabel` |
| LegacyController.DepLabels | controller/controller.go:225-227 | the pod-template labels as they are: nil when nil, the same map otherwise |
| LegacyController.ServiceFor | controller/controller.go:123-149 | the deployment's name, the key's namespace, exactly the label workload=name, the raw pod-template labels as selector, and the single port http/80 |
| LegacyController.IngressFor | controller/controller.go:167-216 | the key's name and namespace, exactly the label workload=name, the rewrite-target annotation "/", and one rule for demo.local with a Prefix path "/"+name to the Service of that name on port 80 |
| LegacyController.LegacyShapes | controller/controller.go:123-140 | the Service selector is the raw pod-template labels, port http/80, labels exactly workload=name; the Ingress has host demo.local and one Prefix path "/"+name on port 80, and routes to the Service when the deployment carries the key's name |
| LegacyController.SyncOptOut | controller/controller.go:118-121 | an opted-out deployment makes no create call |
| LegacyController.SyncBothAttempted | controller/controller.go:151-164 | otherwise the Service and then the Ingress are requested, whether the Service create failed or not |
| LegacyController.AutoCreationDisabled | controller/controller.go:102-117 | every container is visited; the flag is set exactly when some init or main container sets NO_AUTO_CREATION to "yes" or "true" |
| LegacyController.Controller.constructor | controller/controller.go:29-43 | the controller holds the given client, queue and oracles |
| LegacyController.Controller.CreateIngressFor | controller/controller.go:167-223 | the cluster takes the Ingress create; any failure, already-exists included, is returned |
| LegacyController.Controller.SyncDeployment | controller/controller.go:87-165 | never returns an error; the new cluster state is that of the legacy `Sync` specification for the deployment the lister found |
| LegacyController.Controller.ProcessItem | controller/controller.go:61-85 | false exactly on shutdown, with the items, the queue calls and the cluster unchanged; otherwise the item is removed and forgotten (no other queue call), it is synced under whatever key and name resulted, and the result is true |
| LegacyController.Controller.HandleAdd | controller/controller.go:230-246 | a Deployment is enqueued, anything else changes nothing; the shutdown flag is never touched |
| LegacyController.Controller.HandleDel | controller/controller.go:249-265 | changes nothing; it logs a Deployment and nothing else |
| ScanCve.Finding | validator/scancve.go:44 | each finding is a non-empty line |
| ScanCve.EntryFinding | validator/scancve.go:40-47 | an entry panics exactly when it is not an object, has no string Severity, or is kept without a string VulnerabilityID; otherwise a kept entry (severity exactly CRITICAL) gives one finding with its id, and any other entry gives none |
| ScanCve.Then | validator/scancve.go:36-50 | a walk panics when one of its parts does, and otherwise concatenates their findings |
| ScanCve.ResultFindings | validator/scancve.go:37-38 | an object result gives the findings of its Vulnerabilities list; any other result panics |
| ScanCve.EntriesPanic | validator/scancve.go:39-41 | a list of entries panics exactly when one of its entries does |
| ScanCve.ResultsPanic | validator/scancve.go:36-37 | the Results list panics exactly when one of its results does |
| ScanCve.EntriesMembers | validator/scancve.go:39-47 | without a panic, the findings of a list are exactly the findings of its kept entries |
| ScanCve.EntriesLines | validator/scancve.go:44-46 | every finding of a list is a non-empty line |
| ScanCve.ResultsLines | validator/scancve.go:35-51 | every finding of a report is a non-empty line |
| ScanCve.EntriesEmpty | validator/scancve.go:39-48 | without a panic, a list yields no finding exactly when it has no kept entry |
| ScanCve.ResultsEmpty | validator/scancve.go:35-51 | without a panic, Results yield no finding exactly when no result holds a kept entry |
| ScanCve.CollectEntries | validator/scancve.go:38-48 | the inner loop returns the findings of the list, or panics as the specification says |
| ScanCve.CollectFindings | validator/scancve.go:33-51 | the walk returns the findings of the report, or panics as the specification says; a Results value that is not a list gives none |
| ScanCve.ScanVerdict | validator/scancve.go:24-55 | an exec or decode failure gives (false, "", error); after a clean run the image is safe exactly when no result holds a kept entry, and an unsafe image has a non-empty finding text |
| ScanCve.Scan | validator/scancve.go:11-56 | the outcome of the scan specification for the selection |
| ScanCve.ScanImageWithTrivy | validator/scancve.go:11-56 | the scan with trivy asked for CRITICAL only, keeping CRITICAL |
| ScanCve.SeverityCaseMatters | validator/scancve.go:43 | a lower-case "critical" entry is a CVE for pkg/webhook/scanner.go but no finding here |
| LegacyValidator.ParseRequest | validator/validator.go:24-44 | succeeds exactly for an application/json request with a non-empty body that decodes to a review with a Request; the checks go in that order; main.go:165-185 is an identical copy |
| LegacyValidator.ReadErrorIgnored | validator/validator.go:29-31 | a body read error does not change the result |
| LegacyValidator.Inspect | validator/validator.go:61-82 | the images are init then main, duplicates kept; bypass is set exactly when some container sets BYPASS_CVE_DENIED to "yes" or "true" |
| LegacyValidator.TallyPanic | validator/validator.go:83-101 | the scan loop panics exactly when the scan of some image does |
| LegacyValidator.TallyDenied | validator/validator.go:91-100 | denied exactly when some image was scanned without error and is unsafe; reasons exist exactly when denied; as many reasons as unsafe images, every unsafe image's "image (CVE: findings)" reason among them, and no other reason |
| LegacyValidator.TallyCount | validator/validator.go:91-100 | there are exactly as many reasons as images that were scanned without error and are unsafe |
| LegacyValidator.Collect | validator/validator.go:83-101 | the scan loop returns the tally of the loop specification, or panics when it says so |
| LegacyValidator.TallyReasons | validator/validator.go:91-100 | every unsafe image's reason is collected, and every collected reason is that of an unsafe image |
| LegacyValidator.Message | validator/validator.go:102-106 | the message is "Images allowed" exactly when nothing was denied |
| LegacyValidator.ResponseOf | validator/validator.go:109-124 | echoes the TypeMeta and UID; allowed exactly when not denied or bypassed; the message is computed before the bypass |
| LegacyValidator.BypassKeepsDenialText | validator/validator.go:102-112 | a bypassed, denied deployment is allowed and still carries the "Denied images ..." text with its image count and reasons |
| LegacyValidator.Handle | validator/validator.go:46-137 | the reply (400 for a parse or decode failure, 500 for a marshal failure, the review otherwise, or a panic) is that of the reply specification |
| LegacyValidator.ValidateDeployment | validator/validator.go:46-137 | the handler with the CRITICAL-only scan |
| MainWebhook.ScanImageWithTrivy | main.go:187-229 | the scan with no severity flag on the command line, keeping HIGH and CRITICAL |
| MainWebhook.ValidateDeployment | main.go:230-321 | the handler with main.go's scan |
| MainWebhook.HighFindingOnlyInMain | main.go:216 | a report with one HIGH entry makes the image unsafe with one finding for main.go, and safe for validator/scancve.go |

## Left out

- Logging of every kind (`fmt.Print*`, `log.*`), including the emoji and timestamp formatting. The Handle* methods of pkg/controller/handlers.go only log, so all that remains of them is the replica dereference and the image comparison.
- `Run`, `worker`, `wait.Until`, the stop channel and the worker goroutine: these are concurrency. The model runs one item at a time.
- Work-queue internals: deduplication, backoff timing, and the delivery of a rate-limited re-add. `WorkQueue.Get` is only called when it would return, not when it blocks. No claim is made that a re-added key reaches sync again.
- Cluster.Apply, Controller.SyncIdempotent: `reject` is one fixed function of the create request. A refusal therefore depends only on the request, never on time or on earlier calls, and a create of an object that already exists is always answered already-exists, never refused for another reason.
- Cluster.WorkQueue.Get: requires the queue to be non-empty or shutting down; a blocking call is not modelled.
- Informer and lister caches, and cache sync. The lister, `MetaNamespaceKeyFunc` and `SplitMetaNamespaceKey` are oracles.
- LegacyController.Controller.ProcessItem and LegacyController.Controller.SyncDeployment: require the lister to find the deployment, because the source dereferences the lister's result even after an error.
- Client construction and configuration: pkg/k8s, internal/config, utils/utils.go, and the `main` and context helpers of main.go. `Server.Start` and `certExists` (TLS and the filesystem) are left out as well.
- The trivy subprocess, `json.Unmarshal`, `json.Marshal` and `json.MarshalIndent`. They are oracles, so the bytes of a response and the exact Go error texts inside them are not modelled.
- `%q` escaping in the content-type error. The value is quoted without escaping.
- Nil versus empty slices in marshalled output, such as the `cves` of an image with no CVE.
- The pkg/controller/handlers.go `HandleAdd` and `HandleDelete`: they only print.
- Validator.ValidateDeployment: the output is marshalled by `MarshalIndent`, whose error is ignored. It is modelled as an oracle returning a string.
- Admission.HandleValidation: a failure of `w.Write` is only logged and is not modelled.
- LegacyValidator.Handle: a scan panic is reported as `Panicked`. How net/http recovers it by closing the connection is not modelled.
