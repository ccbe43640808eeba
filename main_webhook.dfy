/** main.go: the webhook that the binary actually serves. Its request
    parsing and handler are copies of validator/validator.go; its scan
    asks trivy for every severity and keeps HIGH as well as CRITICAL. */
module MainWebhook {
  import opened Wrappers
  import opened Json
  import opened ScanCve
  import LegacyValidator

  /** main.go's `scanImageWithTrivy`. */
  method ScanImageWithTrivy(t: Trivy, image: string) returns (r: Outcome<Verdict>)
    ensures r == ScanOf(t, HighOrCritical, image)
  {
    r := Scan(t, HighOrCritical, image);
  }

  /** main.go's `ValidateDeployment`. */
  method ValidateDeployment(w: LegacyValidator.Webhook, r: Api.HttpRequest) returns (reply: Outcome<Api.HttpReply>)
    ensures reply == LegacyValidator.ReplyOf(w, HighOrCritical, r)
  {
    reply := LegacyValidator.Handle(w, HighOrCritical, r);
  }

  /** A report with one HIGH vulnerability. */
  function HighReport(id: string): JsonObject {
    map["Results" := JArray([JObject(map["Vulnerabilities" := JArray([
      JObject(map["Severity" := JString("HIGH"), "VulnerabilityID" := JString(id)])])])])]
  }

  /** The same report makes the image unsafe for main.go's scan and safe
      for validator/scancve.go's. */
  lemma HighFindingOnlyInMain(t: Trivy, image: string, id: string)
    requires t.exec(Args(HighOrCritical, image)).Ran? && t.unmarshal(t.exec(Args(HighOrCritical, image)).out) == Success(HighReport(id))
    requires t.exec(Args(CriticalOnly, image)).Ran? && t.unmarshal(t.exec(Args(CriticalOnly, image)).out) == Success(HighReport(id))
    ensures ScanOf(t, HighOrCritical, image) == Returned(Verdict(false, Finding(id), None))
    ensures ScanOf(t, CriticalOnly, image) == Returned(Verdict(true, "", None))
  {
    var entry := JObject(map["Severity" := JString("HIGH"), "VulnerabilityID" := JString(id)]);
    var result := JObject(map["Vulnerabilities" := JArray([entry])]);
    assert "HIGH" != "CRITICAL" by { assert |"HIGH"| != |"CRITICAL"|; }
    assert [entry][..0] == [] && [result][..0] == [];
    assert EntryFinding(entry, HighOrCritical) == Returned([Finding(id)]);
    assert EntryFinding(entry, CriticalOnly) == Returned([]);
    assert [] + [Finding(id)] == [Finding(id)];
    assert EntriesFindings([entry], HighOrCritical) == Returned([Finding(id)]);
    assert EntriesFindings([entry][..0], CriticalOnly) == Returned([]);
    var none: seq<string> := [];
    assert none + none == none;
    assert Then(Returned(none), Returned(none)) == Returned(none);
    assert EntriesFindings([entry], CriticalOnly) == Returned([]);
    assert ResultsFindings([result], HighOrCritical) == Returned([Finding(id)]);
    assert ResultsFindings([result], CriticalOnly) == Returned([]);
  }
}
