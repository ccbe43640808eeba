/** pkg/webhook/admission.go: the HTTP side of the webhook. A request is
    parsed into an AdmissionReview through a chain of guards; a request
    that fails them is answered with 400 and never reaches the validator. */
module Admission {
  import opened Wrappers
  import opened Api
  import Validator

  datatype ParseError =
    | WrongContentType(got: string)
    | BodyReadFailed(reason: string)
    | EmptyBody
    | Undecodable(reason: string)
    | NilRequest

  /** The text of each error, as `err.Error()` gives it. */
  function Describe(e: ParseError): string {
    match e
    case WrongContentType(got) => "Content-Type: \"" + got + "\" should be \"" + ContentTypeJson + "\""
    case BodyReadFailed(reason) => "failed to read request body: " + reason
    case EmptyBody => "admission request body is empty"
    case Undecodable(reason) => "could not parse admission review request: " + reason
    case NilRequest => "admission review request field is nil"
  }

  /** `parseRequest`: the content type must be exactly application/json,
      then the body must be read without error, be non-empty and decode to
      a review whose Request is set; the first failed check is the error. */
  function ParseRequest(r: HttpRequest, decode: seq<byte> -> Result<AdmissionReview, string>): (res: Result<AdmissionReview, ParseError>)
    ensures res.Success? <==>
      r.contentType == ContentTypeJson && r.readError.None? && |r.body| > 0
      && decode(r.body).Success? && decode(r.body).value.request.Some?
    ensures res.Success? ==> res.value == decode(r.body).value && res.value.request.Some?
    ensures r.contentType != ContentTypeJson ==> res == Failure(WrongContentType(r.contentType))
    ensures r.contentType == ContentTypeJson && r.readError.Some? ==> res == Failure(BodyReadFailed(r.readError.value))
    ensures r.contentType == ContentTypeJson && r.readError.None? && |r.body| == 0 ==> res == Failure(EmptyBody)
  {
    if r.contentType != ContentTypeJson then Failure(WrongContentType(r.contentType))
    else if r.readError.Some? then Failure(BodyReadFailed(r.readError.value))
    else if |r.body| == 0 then Failure(EmptyBody)
    else match decode(r.body)
      case Failure(reason) => Failure(Undecodable(reason))
      case Success(review) => if review.request.None? then Failure(NilRequest) else Success(review)
  }

  /** The server's collaborators: the validator, `json.Unmarshal` of the
      body into an AdmissionReview and `json.Marshal` of the answer. */
  datatype Server = Server(
    validator: Validator.Validator,
    decode: seq<byte> -> Result<AdmissionReview, string>,
    marshal: AdmissionReview -> Option<seq<byte>>)

  /** `handleValidation`: a parse error is answered 400 with its text and
      the validator is not consulted; otherwise the validator's review is
      written as JSON, or 500 when it cannot be serialized. */
  method HandleValidation(s: Server, r: HttpRequest) returns (reply: HttpReply)
    ensures ParseRequest(r, s.decode).Failure? ==>
      reply == HttpError(StatusBadRequest, Describe(ParseRequest(r, s.decode).error))
    ensures ParseRequest(r, s.decode).Success? ==>
      var answer := Validator.ResponseOf(s.validator, ParseRequest(r, s.decode).value);
      reply == (match s.marshal(answer)
                case None => HttpError(StatusInternalServerError, "Internal server error")
                case Some(body) => HttpJson(body))
  {
    var parsed := ParseRequest(r, s.decode);
    if parsed.Failure? {
      return HttpError(StatusBadRequest, Describe(parsed.error));
    }
    var response := Validator.ValidateDeployment(s.validator, parsed.value);
    var responseJson := s.marshal(response);
    if responseJson.None? {
      return HttpError(StatusInternalServerError, "Internal server error");
    }
    return HttpJson(responseJson.value);
  }
}
