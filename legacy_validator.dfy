/** validator/validator.go: the older admission handler. It scans every
    image with the walk of validator/scancve.go, denies when one of them
    reports findings, lets a bypassed deployment through with the denial
    text kept, and answers at once from the HTTP handler. main.go carries
    a copy of this handler that differs only in its scan selection. */
module LegacyValidator {
  import opened Wrappers
  import opened Api
  import opened Workload
  import opened Text
  import opened ScanCve

  datatype ParseError =
    | WrongContentType(got: string)
    | EmptyBody
    | Undecodable(reason: string)
    | NilRequest

  function Describe(e: ParseError): string {
    match e
    case WrongContentType(got) => "Content-Type: \"" + got + "\" should be \"" + ContentTypeJson + "\""
    case EmptyBody => "admission request body is empty"
    case Undecodable(reason) => "could not parse admission review request: " + reason
    case NilRequest => "admission review can't be used: Request field is nil"
  }

  /** `parseRequest`: exact JSON content type, a non-empty body (whatever
      was read before a read error), a decodable review with a Request. */
  function ParseRequest(r: HttpRequest, decode: seq<byte> -> Result<AdmissionReview, string>): (res: Result<AdmissionReview, ParseError>)
    ensures res.Success? <==>
      r.contentType == ContentTypeJson && |r.body| > 0 && decode(r.body).Success? && decode(r.body).value.request.Some?
    ensures res.Success? ==> res.value == decode(r.body).value
    ensures r.contentType != ContentTypeJson ==> res == Failure(WrongContentType(r.contentType))
    ensures r.contentType == ContentTypeJson && |r.body| == 0 ==> res == Failure(EmptyBody)
  {
    if r.contentType != ContentTypeJson then Failure(WrongContentType(r.contentType))
    else if |r.body| == 0 then Failure(EmptyBody)
    else match decode(r.body)
      case Failure(reason) => Failure(Undecodable(reason))
      case Success(review) => if review.request.None? then Failure(NilRequest) else Success(review)
  }

  /** The read error of the body is dropped: a request parses the same
      with or without one. */
  lemma ReadErrorIgnored(r: HttpRequest, decode: seq<byte> -> Result<AdmissionReview, string>)
    ensures ParseRequest(r, decode) == ParseRequest(r.(readError := None), decode)
  {
  }

  /** The handler's collaborators: trivy, `json.Unmarshal` of the body and
      of the raw object, and `json.Marshal` of the answer. */
  datatype Webhook = Webhook(
    trivy: Trivy,
    decodeReview: seq<byte> -> Result<AdmissionReview, string>,
    decodeDeployment: seq<byte> -> Result<Deployment, string>,
    marshal: AdmissionReview -> Result<seq<byte>, string>)

  /** The container loops: each container's env is checked for
      BYPASS_CVE_DENIED, then its image is appended; init containers first. */
  method Inspect(d: Deployment) returns (images: seq<string>, bypass: bool)
    ensures images == DeploymentImages(d)
    ensures bypass <==> FlagSet(d, BypassCveDenied)
  {
    images, bypass := [], false;
    for i := 0 to |d.initContainers|
      invariant images == ImagesOf(d.initContainers[..i])
      invariant bypass <==> exists k :: 0 <= k < i && ContainerSets(d.initContainers[k], BypassCveDenied)
    {
      var c := d.initContainers[i];
      ghost var before := bypass;
      for j := 0 to |c.env|
        invariant bypass <==> before || exists l :: 0 <= l < j && SetsVar(c.env[l], BypassCveDenied)
      {
        if c.env[j].name == BypassCveDenied && (c.env[j].value == "yes" || c.env[j].value == "true") {
          bypass := true;
        }
      }
      assert d.initContainers[..i + 1] == d.initContainers[..i] + [c];
      images := images + [c.image];
    }
    assert d.initContainers[..|d.initContainers|] == d.initContainers;
    ghost var fromInit := bypass;
    for i := 0 to |d.containers|
      invariant images == ImagesOf(d.initContainers) + ImagesOf(d.containers[..i])
      invariant bypass <==> fromInit || exists k :: 0 <= k < i && ContainerSets(d.containers[k], BypassCveDenied)
    {
      var c := d.containers[i];
      ghost var before := bypass;
      for j := 0 to |c.env|
        invariant bypass <==> before || exists l :: 0 <= l < j && SetsVar(c.env[l], BypassCveDenied)
      {
        if c.env[j].name == BypassCveDenied && (c.env[j].value == "yes" || c.env[j].value == "true") {
          bypass := true;
        }
      }
      assert d.containers[..i + 1] == d.containers[..i] + [c];
      images := images + [c.image];
    }
    assert d.containers[..|d.containers|] == d.containers;
  }

  /** `denied` and `reasons` after the scan loop. */
  datatype Tally = Tally(denied: bool, reasons: seq<string>)

  function Reason(image: string, vulns: string): string {
    image + " (CVE: " + vulns + ")"
  }

  /** A scan that ran and reported findings. */
  predicate Unsafe(t: Trivy, sel: Selection, image: string) {
    ScanOf(t, sel, image).Returned? && ScanOf(t, sel, image).value.err.None? && !ScanOf(t, sel, image).value.ok
  }

  /** The scan loop: a failed scan is skipped, an unsafe image denies and
      adds its reason, and a panicking scan ends the handler. */
  function TallyOf(images: seq<string>, t: Trivy, sel: Selection): Outcome<Tally> {
    if |images| == 0 then Returned(Tally(false, []))
    else
      var image := images[|images| - 1];
      match TallyOf(images[..|images| - 1], t, sel)
      case Panicked => Panicked
      case Returned(tally) =>
        match ScanOf(t, sel, image)
        case Panicked => Panicked
        case Returned(v) =>
          if v.err.None? && !v.ok then Returned(Tally(true, tally.reasons + [Reason(image, v.vulns)]))
          else Returned(tally)
  }

  /** The loop panics exactly when the scan of some image does. */
  lemma {:induction false} TallyPanic(images: seq<string>, t: Trivy, sel: Selection)
    ensures TallyOf(images, t, sel).Panicked? <==> exists k :: 0 <= k < |images| && ScanOf(t, sel, images[k]).Panicked?
  {
    if |images| > 0 {
      var init := images[..|images| - 1];
      TallyPanic(init, t, sel);
      assert forall k :: 0 <= k < |init| ==> init[k] == images[k];
    }
  }

  /** The positions of the unsafe images. */
  ghost function UnsafeAt(images: seq<string>, t: Trivy, sel: Selection): set<int> {
    set k | 0 <= k < |images| && Unsafe(t, sel, images[k])
  }

  lemma UnsafeAtSnoc(images: seq<string>, t: Trivy, sel: Selection)
    requires |images| > 0
    ensures var n := |images| - 1;
      UnsafeAt(images, t, sel) == UnsafeAt(images[..n], t, sel) + (if Unsafe(t, sel, images[n]) then {n} else {})
  {
    var n := |images| - 1;
    assert forall k :: 0 <= k < n ==> images[..n][k] == images[k];
  }

  /** The reasons are those of the unsafe images: each unsafe image's
      reason is there, and every reason is that of an unsafe image. */
  lemma {:induction false} TallyReasons(images: seq<string>, t: Trivy, sel: Selection)
    requires TallyOf(images, t, sel).Returned?
    ensures var tally := TallyOf(images, t, sel).value;
      && (forall k :: 0 <= k < |images| && Unsafe(t, sel, images[k]) ==>
            Reason(images[k], ScanOf(t, sel, images[k]).value.vulns) in tally.reasons)
      && (forall r :: r in tally.reasons ==>
            exists k :: 0 <= k < |images| && Unsafe(t, sel, images[k]) && r == Reason(images[k], ScanOf(t, sel, images[k]).value.vulns))
  {
    if |images| > 0 {
      var n := |images| - 1;
      var init := images[..n];
      TallyReasons(init, t, sel);
      assert forall k :: 0 <= k < |init| ==> init[k] == images[k];
      var before := TallyOf(init, t, sel).value.reasons;
      var v := ScanOf(t, sel, images[n]).value;
      if v.err.None? && !v.ok {
        assert TallyOf(images, t, sel).value.reasons == before + [Reason(images[n], v.vulns)];
      } else {
        assert TallyOf(images, t, sel).value.reasons == before;
        assert !Unsafe(t, sel, images[n]);
      }
    }
  }

  /** There are as many reasons as unsafe images. */
  lemma {:induction false} TallyCount(images: seq<string>, t: Trivy, sel: Selection)
    requires TallyOf(images, t, sel).Returned?
    ensures |TallyOf(images, t, sel).value.reasons| == |UnsafeAt(images, t, sel)|
  {
    if |images| > 0 {
      var n := |images| - 1;
      var init := images[..n];
      TallyCount(init, t, sel);
      UnsafeAtSnoc(images, t, sel);
      assert n !in UnsafeAt(init, t, sel);
    }
  }

  /** Otherwise the request is denied exactly when some image is unsafe, a
      reason exists exactly when the request is denied, and the reasons are
      one per unsafe image: as many as there are unsafe images, each unsafe
      image's reason among them, and every reason that of an unsafe image. */
  lemma {:induction false} TallyDenied(images: seq<string>, t: Trivy, sel: Selection)
    requires TallyOf(images, t, sel).Returned?
    ensures var tally := TallyOf(images, t, sel).value;
      && (tally.denied <==> exists k :: 0 <= k < |images| && Unsafe(t, sel, images[k]))
      && (tally.denied <==> tally.reasons != [])
      && |tally.reasons| == |UnsafeAt(images, t, sel)|
      && (forall k :: 0 <= k < |images| && Unsafe(t, sel, images[k]) ==>
            Reason(images[k], ScanOf(t, sel, images[k]).value.vulns) in tally.reasons)
      && (forall r :: r in tally.reasons ==>
            exists k :: 0 <= k < |images| && Unsafe(t, sel, images[k]) && r == Reason(images[k], ScanOf(t, sel, images[k]).value.vulns))
  {
    TallyCount(images, t, sel);
    TallyReasons(images, t, sel);
    if |images| > 0 {
      var init := images[..|images| - 1];
      TallyDenied(init, t, sel);
      assert forall k :: 0 <= k < |init| ==> init[k] == images[k];
    }
  }

  /** The Status message: "Images allowed", or the denial with the image
      count and the reasons as `%v` prints a `[]string`. */
  function Message(imageCount: nat, tally: Tally): (m: string)
    ensures m == "Images allowed" <==> !tally.denied
  {
    if tally.denied then
      var m := "Denied images due to total CVEs across " + NatToString(imageCount) + " images: " + GoList(tally.reasons);
      assert m[0] != "Images allowed"[0];
      m
    else "Images allowed"
  }

  /** The review sent back: the request's TypeMeta and UID, allowed unless
      denied without bypass, and the message. */
  function ResponseOf(review: AdmissionReview, images: seq<string>, tally: Tally, bypass: bool): (out: AdmissionReview)
    requires review.request.Some?
    ensures out.typeMeta == review.typeMeta && out.request.None? && out.response.Some?
    ensures out.response.value.uid == review.request.value.uid
    ensures out.response.value.allowed <==> !tally.denied || bypass
    ensures out.response.value.result == Status(0, Message(|images|, tally))
  {
    AdmissionReview(review.typeMeta, None,
      Some(AdmissionResponse(review.request.value.uid, !tally.denied || bypass, Status(0, Message(|images|, tally)))))
  }

  /** A bypassed deployment is admitted, and when it was denied the answer
      still carries the denial text. */
  lemma BypassKeepsDenialText(review: AdmissionReview, images: seq<string>, tally: Tally)
    requires review.request.Some? && tally.denied
    ensures ResponseOf(review, images, tally, true).response.value.allowed
    ensures ResponseOf(review, images, tally, true).response.value.result.message
         == "Denied images due to total CVEs across " + NatToString(|images|) + " images: " + GoList(tally.reasons)
  {
  }

  /** The HTTP answer of the handler for a selection, or a panic. */
  function ReplyOf(w: Webhook, sel: Selection, r: HttpRequest): Outcome<HttpReply> {
    match ParseRequest(r, w.decodeReview)
    case Failure(e) => Returned(HttpError(StatusBadRequest, Describe(e)))
    case Success(review) =>
      match w.decodeDeployment(review.request.value.raw)
      case Failure(e) => Returned(HttpError(StatusBadRequest, "could not unmarshal deployment: " + e))
      case Success(dep) =>
        var images := DeploymentImages(dep);
        match TallyOf(images, w.trivy, sel)
        case Panicked => Panicked
        case Returned(tally) =>
          match w.marshal(ResponseOf(review, images, tally, FlagSet(dep, BypassCveDenied)))
          case Failure(e) => Returned(HttpError(StatusInternalServerError, "could not parse admission response: " + e))
          case Success(body) => Returned(HttpJson(body))
  }

  /** The scan loop of `ValidateDeployment`. */
  method Collect(t: Trivy, sel: Selection, images: seq<string>) returns (o: Outcome<Tally>)
    ensures o == TallyOf(images, t, sel)
  {
    var denied := false;
    var reasons: seq<string> := [];
    for i := 0 to |images|
      invariant TallyOf(images[..i], t, sel) == Returned(Tally(denied, reasons))
    {
      assert images[..i + 1][..i] == images[..i];
      var scanned := Scan(t, sel, images[i]);
      if scanned.Panicked? {
        TallyPanic(images, t, sel);
        return Panicked;
      }
      var v := scanned.value;
      if v.err.Some? {
        continue;
      }
      if !v.ok {
        denied := true;
        reasons := reasons + [Reason(images[i], v.vulns)];
      }
    }
    assert images[..|images|] == images;
    return Returned(Tally(denied, reasons));
  }

  /** `ValidateDeployment` over a selection. */
  method Handle(w: Webhook, sel: Selection, r: HttpRequest) returns (reply: Outcome<HttpReply>)
    ensures reply == ReplyOf(w, sel, r)
    ensures ParseRequest(r, w.decodeReview).Failure? ==>
      reply == Returned(HttpError(StatusBadRequest, Describe(ParseRequest(r, w.decodeReview).error)))
  {
    var parsed := ParseRequest(r, w.decodeReview);
    if parsed.Failure? {
      return Returned(HttpError(StatusBadRequest, Describe(parsed.error)));
    }
    var review := parsed.value;
    var decoded := w.decodeDeployment(review.request.value.raw);
    if decoded.Failure? {
      return Returned(HttpError(StatusBadRequest, "could not unmarshal deployment: " + decoded.error));
    }
    var dep := decoded.value;
    var images, bypass := Inspect(dep);
    var tallied := Collect(w.trivy, sel, images);
    if tallied.Panicked? {
      return Panicked;
    }
    var response := ResponseOf(review, images, tallied.value, bypass);
    var jout := w.marshal(response);
    if jout.Failure? {
      return Returned(HttpError(StatusInternalServerError, "could not parse admission response: " + jout.error));
    }
    return Returned(HttpJson(jout.value));
  }

  /** This file's handler: the CRITICAL-only scan. */
  method ValidateDeployment(w: Webhook, r: HttpRequest) returns (reply: Outcome<HttpReply>)
    ensures reply == ReplyOf(w, CriticalOnly, r)
  {
    reply := Handle(w, CriticalOnly, r);
  }
}
