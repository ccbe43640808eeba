/** pkg/webhook/validator.go: decides an admission review. It decodes the
    Deployment, scans every image it declares, denies when some image has a
    critical CVE unless a container sets BYPASS_CVE_DENIED, and answers with
    the whole ValidationOutput as the message. */
module Validator {
  import opened Wrappers
  import opened Api
  import opened Types
  import opened Workload
  import opened Scanner

  /** The validator's collaborators: the scanner, `json.Unmarshal` of the
      review's raw object into a Deployment (with its error text) and
      `json.MarshalIndent` of the output (whose error is ignored, so a
      failure reads as ""). */
  datatype Validator = Validator(
    scanner: Scanner,
    decode: seq<byte> -> Result<Deployment, string>,
    marshal: ValidationOutput -> string)

  /** `extractImages`: init-container images, then main-container images,
      duplicates kept. */
  method ExtractImages(d: Deployment) returns (images: seq<string>)
    ensures |images| == |d.initContainers| + |d.containers|
    ensures forall k :: 0 <= k < |d.initContainers| ==> images[k] == d.initContainers[k].image
    ensures forall k :: 0 <= k < |d.containers| ==> images[|d.initContainers| + k] == d.containers[k].image
    ensures images == DeploymentImages(d)
  {
    images := [];
    for i := 0 to |d.initContainers|
      invariant images == ImagesOf(d.initContainers[..i])
    {
      assert d.initContainers[..i + 1] == d.initContainers[..i] + [d.initContainers[i]];
      images := images + [d.initContainers[i].image];
    }
    assert d.initContainers[..|d.initContainers|] == d.initContainers;
    for i := 0 to |d.containers|
      invariant images == ImagesOf(d.initContainers) + ImagesOf(d.containers[..i])
    {
      assert d.containers[..i + 1] == d.containers[..i] + [d.containers[i]];
      images := images + [d.containers[i].image];
    }
    assert d.containers[..|d.containers|] == d.containers;
  }

  /** `shouldBypassCVE`: some init or main container sets BYPASS_CVE_DENIED
      to exactly "yes" or "true". */
  method ShouldBypassCVE(d: Deployment) returns (bypass: bool)
    ensures bypass <==> FlagSet(d, BypassCveDenied)
  {
    for i := 0 to |d.initContainers|
      invariant forall k :: 0 <= k < i ==> !ContainerSets(d.initContainers[k], BypassCveDenied)
    {
      var env := d.initContainers[i].env;
      for j := 0 to |env|
        invariant forall l :: 0 <= l < j ==> !SetsVar(env[l], BypassCveDenied)
      {
        if env[j].name == BypassCveDenied && (env[j].value == "yes" || env[j].value == "true") {
          assert SetsVar(env[j], BypassCveDenied) && ContainerSets(d.initContainers[i], BypassCveDenied);
          return true;
        }
      }
    }
    for i := 0 to |d.containers|
      invariant forall k :: 0 <= k < i ==> !ContainerSets(d.containers[k], BypassCveDenied)
    {
      var env := d.containers[i].env;
      for j := 0 to |env|
        invariant forall l :: 0 <= l < j ==> !SetsVar(env[l], BypassCveDenied)
      {
        if env[j].name == BypassCveDenied && (env[j].value == "yes" || env[j].value == "true") {
          assert SetsVar(env[j], BypassCveDenied) && ContainerSets(d.containers[i], BypassCveDenied);
          return true;
        }
      }
    }
    return false;
  }

  predicate AnyCritical(results: seq<ImageScanResult>) {
    exists i :: 0 <= i < |results| && results[i].criticalCVEs > 0
  }

  /** `hasCriticalCVEs`: some result has a positive critical count (so never
      for an empty list). */
  method HasCriticalCVEs(results: seq<ImageScanResult>) returns (found: bool)
    ensures found <==> exists i :: 0 <= i < |results| && results[i].criticalCVEs > 0
    ensures results == [] ==> !found
  {
    for i := 0 to |results|
      invariant forall k :: 0 <= k < i ==> results[k].criticalCVEs <= 0
    {
      if results[i].criticalCVEs > 0 {
        return true;
      }
    }
    return false;
  }

  /** The decision as `ValidateDeployment` assigns it: ALLOWED, DENIED when
      some image has a critical CVE, then ALLOWED again under bypass. */
  function Decision(results: seq<ImageScanResult>, bypass: bool): string {
    var decision := if AnyCritical(results) then Denied else Allowed;
    if bypass then Allowed else decision
  }

  /** The ValidationOutput for a decoded deployment. */
  function OutcomeOf(v: Validator, d: Deployment): ValidationOutput {
    var results := ScanAll(v.scanner, DeploymentImages(d));
    ValidationOutput(d.name, d.namespace, results, Decision(results, FlagSet(d, BypassCveDenied)))
  }

  /** DENIED exactly when some image has a critical CVE and no container
      sets the bypass; ALLOWED otherwise. */
  lemma DecisionRule(v: Validator, d: Deployment)
    ensures var out := OutcomeOf(v, d);
      && (out.decision == Denied <==> AnyCritical(out.images) && !FlagSet(d, BypassCveDenied))
      && (out.decision == Allowed <==> !(out.decision == Denied))
  {
  }

  /** The bypass changes the decision only: the per-image results are the
      scanner's, in image order, and the names are the deployment's. */
  lemma BypassKeepsFindings(v: Validator, d: Deployment)
    ensures var out := OutcomeOf(v, d);
      && out.deployment == d.name && out.namespace == d.namespace
      && out.images == ScanAll(v.scanner, DeploymentImages(d))
      && |out.images| == |d.initContainers| + |d.containers|
      && forall k :: 0 <= k < |out.images| ==> out.images[k].criticalCVEs == ScanOf(v.scanner, DeploymentImages(d)[k]).count
  {
  }

  /** A deployment with images "app:1.0" and "sidecar:2.0" whose scanner
      finds two critical CVEs in the sidecar only is DENIED with both counts
      reported, and ALLOWED with the same counts once an init container sets
      the bypass. */
  lemma SidecarScenario(v: Validator, d: Deployment)
    requires forall k :: 0 <= k < |d.initContainers| ==> d.initContainers[k].image == "app:1.0"
    requires |d.containers| == 2 && d.containers[0].image == "app:1.0" && d.containers[1].image == "sidecar:2.0"
    requires ScanOf(v.scanner, "app:1.0").count == 0 && ScanOf(v.scanner, "sidecar:2.0").count == 2
    requires !AnyContainerSets(d.containers, BypassCveDenied)
    ensures var out := OutcomeOf(v, d);
      && out.images[|d.initContainers| + 1].criticalCVEs == 2
      && out.images[|d.initContainers|].criticalCVEs == 0
      && (out.decision == Denied <==> !AnyContainerSets(d.initContainers, BypassCveDenied))
  {
    var images := DeploymentImages(d);
    var n := |d.initContainers|;
    assert images[n + 1] == "sidecar:2.0";
    assert images[n] == "app:1.0";
    assert OutcomeOf(v, d).images[n + 1].criticalCVEs == 2;
  }

  /** `createResponse`: echoes the review's TypeMeta and request UID and
      carries the serialized output as message. */
  function CreateResponse(review: AdmissionReview, allowed: bool, output: ValidationOutput, marshal: ValidationOutput -> string): (r: AdmissionReview)
    requires review.request.Some?
    ensures r.typeMeta == review.typeMeta && r.request.None?
    ensures r.response == Some(AdmissionResponse(review.request.value.uid, allowed, Status(0, marshal(output))))
  {
    AdmissionReview(review.typeMeta, None, Some(AdmissionResponse(review.request.value.uid, allowed, Status(0, marshal(output)))))
  }

  /** `createErrorResponse`: a refusal with code 400. */
  function CreateErrorResponse(review: AdmissionReview, message: string, err: string): (r: AdmissionReview)
    requires review.request.Some?
    ensures r.typeMeta == review.typeMeta && r.request.None?
    ensures r.response == Some(AdmissionResponse(review.request.value.uid, false, Status(400, message + ": " + err)))
  {
    AdmissionReview(review.typeMeta, None, Some(AdmissionResponse(review.request.value.uid, false, Status(400, message + ": " + err))))
  }

  /** The review `ValidateDeployment` answers with. */
  function ResponseOf(v: Validator, review: AdmissionReview): AdmissionReview
    requires review.request.Some?
  {
    match v.decode(review.request.value.raw)
    case Failure(e) => CreateErrorResponse(review, "failed to unmarshal deployment", e)
    case Success(d) =>
      var out := OutcomeOf(v, d);
      CreateResponse(review, out.decision == Allowed, out, v.marshal)
  }

  /** `ValidateDeployment`: the UID and TypeMeta are echoed on every path;
      an undecodable object is refused with code 400 before any scan;
      otherwise the verdict follows the decision and the message is the
      serialized output. */
  method ValidateDeployment(v: Validator, review: AdmissionReview) returns (resp: AdmissionReview)
    requires review.request.Some?
    ensures resp == ResponseOf(v, review)
    ensures resp.typeMeta == review.typeMeta && resp.response.Some?
    ensures resp.response.value.uid == review.request.value.uid
    ensures v.decode(review.request.value.raw).Failure? ==>
      resp.response.value == AdmissionResponse(review.request.value.uid, false,
        Status(400, "failed to unmarshal deployment: " + v.decode(review.request.value.raw).error))
    ensures v.decode(review.request.value.raw).Success? ==>
      var out := OutcomeOf(v, v.decode(review.request.value.raw).value);
      && resp.response.value.allowed == (out.decision == Allowed)
      && resp.response.value.result == Status(0, v.marshal(out))
  {
    var decoded := v.decode(review.request.value.raw);
    if decoded.Failure? {
      return CreateErrorResponse(review, "failed to unmarshal deployment", decoded.error);
    }
    var deployment := decoded.value;
    var images := ExtractImages(deployment);
    var bypassCVE := ShouldBypassCVE(deployment);
    var scanResults := ScanImages(v.scanner, images);
    var validationOutput := ValidationOutput(deployment.name, deployment.namespace, scanResults, Allowed);
    var denied := HasCriticalCVEs(scanResults);
    if denied {
      validationOutput := validationOutput.(decision := Denied);
    }
    if bypassCVE {
      validationOutput := validationOutput.(decision := Allowed);
      denied := false;
    }
    resp := CreateResponse(review, !denied, validationOutput, v.marshal);
  }
}
