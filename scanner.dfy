/** pkg/webhook/scanner.go: runs trivy on an image and reduces its JSON
    report to the CRITICAL vulnerabilities it lists. The trivy process and
    `json.Unmarshal` are oracles; the walk over the decoded report is
    modelled as written. */
module Scanner {
  import opened Wrappers
  import opened Api
  import opened Json
  import opened Types

  /** What running trivy produced: a failure, or its standard output. */
  datatype Exec = ExecError | Output(bytes: seq<byte>)

  /** The scanner: the trivy server it points at, the trivy invocation for
      (server, image), and `json.Unmarshal` into `map[string]interface{}`. */
  datatype Scanner = Scanner(
    serverURL: string,
    trivy: (string, string) -> Exec,
    unmarshal: seq<byte> -> Option<JsonObject>)

  function LowerAscii(c: char): char {
    if 'A' <= c <= 'Z' then (c as int + 32) as char else c
  }

  /** `strings.EqualFold(severity, "CRITICAL")`. Under Go's simple case
      folding no character other than the ASCII upper- and lower-case forms
      folds to a letter of "critical", so an ASCII-insensitive comparison is
      exact here. */
  function IsCritical(severity: string): (critical: bool)
    ensures critical <==>
      |severity| == 8 && forall i :: 0 <= i < 8 ==> severity[i] == "critical"[i] || severity[i] == "CRITICAL"[i]
  {
    |severity| == 8 && forall i :: 0 <= i < 8 ==> LowerAscii(severity[i]) == "critical"[i]
  }

  lemma IsCriticalExamples()
    ensures IsCritical("CRITICAL") && IsCritical("critical") && IsCritical("Critical")
    ensures !IsCritical("HIGH") && !IsCritical("CRITICAL ")
  {
    assert LowerAscii('H') == 'h' != "critical"[0];
  }

  /** `vmap[k].(string)` with the ok dropped: "" when absent or not a string. */
  function StringOrEmpty(m: JsonObject, k: string): (r: string)
    ensures k in m && m[k].JString? ==> r == m[k].s
    ensures !(k in m && m[k].JString?) ==> r == ""
  {
    StringAt(m, k).GetOr("")
  }

  /** The CVE one vulnerability entry contributes: present only for an object
      whose Severity is a string equal to CRITICAL ignoring case. */
  function EntryCve(v: Json): (r: Option<CVE>)
    ensures r.Some? <==> v.JObject? && StringAt(v.fields, "Severity").Some? && IsCritical(StringAt(v.fields, "Severity").value)
    ensures r.Some? ==> r.value.id == StringOrEmpty(v.fields, "VulnerabilityID")
    ensures r.Some? ==> r.value.url == StringOrEmpty(v.fields, "PrimaryURL")
  {
    match AsObject(v)
    case None => None
    case Some(vmap) =>
      match StringAt(vmap, "Severity")
      case None => None
      case Some(severity) =>
        if IsCritical(severity) then Some(CVE(StringOrEmpty(vmap, "VulnerabilityID"), StringOrEmpty(vmap, "PrimaryURL")))
        else None
  }

  function OptionSeq<T>(o: Option<T>): seq<T> {
    if o.Some? then [o.value] else []
  }

  /** The CVEs of a `Vulnerabilities` list, in order. */
  function EntriesCves(vs: seq<Json>): seq<CVE> {
    if |vs| == 0 then [] else EntriesCves(vs[..|vs| - 1]) + OptionSeq(EntryCve(vs[|vs| - 1]))
  }

  /** The vulnerability list of one result: none unless it is an object
      whose `Vulnerabilities` is a list. */
  function ResultEntries(r: Json): seq<Json> {
    match AsObject(r)
    case None => []
    case Some(rmap) => ListAt(rmap, "Vulnerabilities").GetOr([])
  }

  /** The CVEs of a `Results` list, in encounter order. */
  function ResultsCves(rs: seq<Json>): seq<CVE> {
    if |rs| == 0 then [] else ResultsCves(rs[..|rs| - 1]) + EntriesCves(ResultEntries(rs[|rs| - 1]))
  }

  /** The CVEs of a whole report; none when `Results` is absent or not a list. */
  function ReportCves(report: JsonObject): seq<CVE> {
    ResultsCves(ListAt(report, "Results").GetOr([]))
  }

  /** A CVE is reported for a vulnerability list exactly when some entry of
      it is a CRITICAL entry with that id and url. */
  lemma {:induction false} EntriesCvesMembers(vs: seq<Json>, c: CVE)
    ensures c in EntriesCves(vs) <==> exists j :: 0 <= j < |vs| && EntryCve(vs[j]) == Some(c)
  {
    if |vs| > 0 {
      var init := vs[..|vs| - 1];
      EntriesCvesMembers(init, c);
      if c in EntriesCves(vs) && c !in EntriesCves(init) {
        assert EntryCve(vs[|vs| - 1]) == Some(c);
      }
      if exists j :: 0 <= j < |vs| && EntryCve(vs[j]) == Some(c) {
        var j :| 0 <= j < |vs| && EntryCve(vs[j]) == Some(c);
        if j < |vs| - 1 {
          assert init[j] == vs[j];
        }
      }
    }
  }

  /** The positions of the CRITICAL entries of a list. */
  function CriticalAt(vs: seq<Json>): set<int> {
    set j | 0 <= j < |vs| && EntryCve(vs[j]).Some?
  }

  /** Extending a list by one entry adds its position exactly when that
      entry is CRITICAL. */
  lemma CriticalAtSnoc(vs: seq<Json>)
    requires |vs| > 0
    ensures var n := |vs| - 1;
      CriticalAt(vs) == CriticalAt(vs[..n]) + (if EntryCve(vs[n]).Some? then {n} else {})
  {
    var n := |vs| - 1;
    forall j | 0 <= j < n ensures vs[..n][j] == vs[j] { }
  }

  /** The number of CVEs of a list is the number of its CRITICAL entries;
      every other entry (non-object, no string Severity, other severity) is
      skipped. */
  lemma {:induction false} EntriesCvesCount(vs: seq<Json>)
    ensures |EntriesCves(vs)| == |CriticalAt(vs)|
  {
    if |vs| > 0 {
      var n := |vs| - 1;
      EntriesCvesCount(vs[..n]);
      CriticalAtSnoc(vs);
      assert n !in CriticalAt(vs[..n]);
    }
  }

  /** Some entry of the result's vulnerability list is a CRITICAL entry
      with that id and url. */
  predicate ReportedIn(r: Json, c: CVE) {
    exists j :: 0 <= j < |ResultEntries(r)| && EntryCve(ResultEntries(r)[j]) == Some(c)
  }

  /** A CVE is reported for a `Results` list exactly when some result that
      is an object with a `Vulnerabilities` list has a CRITICAL entry with
      that id and url. */
  lemma {:induction false} ResultsCvesMembers(rs: seq<Json>, c: CVE)
    ensures c in ResultsCves(rs) <==> exists i :: 0 <= i < |rs| && ReportedIn(rs[i], c)
  {
    if |rs| > 0 {
      var n := |rs| - 1;
      var init := rs[..n];
      ResultsCvesMembers(init, c);
      EntriesCvesMembers(ResultEntries(rs[n]), c);
      assert c in ResultsCves(rs) <==> c in ResultsCves(init) || ReportedIn(rs[n], c);
      assert (exists i :: 0 <= i < n && ReportedIn(init[i], c)) <==> (exists i :: 0 <= i < n && ReportedIn(rs[i], c)) by {
        forall i | 0 <= i < n ensures init[i] == rs[i] { }
      }
    }
  }

  /** Malformed results contribute nothing: a result that is not an object,
      or whose `Vulnerabilities` is not a list, adds no CVE. */
  lemma SkipsMalformedResult(rs: seq<Json>, r: Json)
    requires !r.JObject? || ListAt(r.fields, "Vulnerabilities").None?
    ensures ResultsCves(rs + [r]) == ResultsCves(rs)
  {
    assert (rs + [r])[..|rs|] == rs;
  }

  /** `parseTrivyOutput`: a report that does not decode is an unsafe error
      result with no CVE; otherwise the CVEs of the report, counted, and
      safe exactly when there are none. */
  method ParseTrivyOutput(s: Scanner, output: seq<byte>) returns (r: ScanResult)
    ensures s.unmarshal(output).None? ==> r == ScanResult(false, [], 0, Some(OutputUnparsable))
    ensures s.unmarshal(output).Some? ==>
      && r.error.None?
      && r.vulnerabilities == ReportCves(s.unmarshal(output).value)
      && r.count == |r.vulnerabilities|
      && (r.safe <==> r.vulnerabilities == [])
  {
    var decoded := s.unmarshal(output);
    if decoded.None? {
      return ScanResult(false, [], 0, Some(OutputUnparsable));
    }
    var result := decoded.value;
    var vulnerabilities: seq<CVE> := [];
    var count := 0;
    var results := ListAt(result, "Results");
    if results.None? {
      return ScanResult(true, [], 0, None);
    }
    var rs := results.value;
    for i := 0 to |rs|
      invariant vulnerabilities == ResultsCves(rs[..i])
      invariant count == |vulnerabilities|
    {
      assert rs[..i + 1][..i] == rs[..i];
      var rmap := AsObject(rs[i]);
      if rmap.Some? {
        var vlist := ListAt(rmap.value, "Vulnerabilities");
        if vlist.Some? {
          var vs := vlist.value;
          for j := 0 to |vs|
            invariant vulnerabilities == ResultsCves(rs[..i]) + EntriesCves(vs[..j])
            invariant count == |vulnerabilities|
          {
            assert vs[..j + 1][..j] == vs[..j];
            var vmap := AsObject(vs[j]);
            if vmap.Some? {
              var severity := StringAt(vmap.value, "Severity");
              if severity.Some? && IsCritical(severity.value) {
                count := count + 1;
                var vulnID := StringOrEmpty(vmap.value, "VulnerabilityID");
                var primaryURL := StringOrEmpty(vmap.value, "PrimaryURL");
                vulnerabilities := vulnerabilities + [CVE(vulnID, primaryURL)];
              }
            }
          }
          assert vs[..|vs|] == vs;
        }
      }
    }
    assert rs[..|rs|] == rs;
    var safe := |vulnerabilities| == 0;
    return ScanResult(safe, vulnerabilities, count, None);
  }

  /** What `ScanImage` returns for an image. */
  function ScanOf(s: Scanner, image: string): ScanResult {
    match s.trivy(s.serverURL, image)
    case ExecError => ScanResult(false, [], 0, Some(ExecFailed))
    case Output(bytes) =>
      match s.unmarshal(bytes)
      case None => ScanResult(false, [], 0, Some(OutputUnparsable))
      case Some(report) =>
        var cves := ReportCves(report);
        ScanResult(|cves| == 0, cves, |cves|, None)
  }

  /** Every scan result is consistent: the count is the number of CVEs, a
      failure is unsafe with nothing found, and a report is safe exactly
      when it lists nothing. */
  lemma ScanOfConsistent(s: Scanner, image: string)
    ensures var r := ScanOf(s, image);
      && r.count == |r.vulnerabilities|
      && (r.error.Some? ==> !r.safe && r.count == 0)
      && (r.error.None? ==> (r.safe <==> r.vulnerabilities == []))
  {
  }

  /** `ScanImage` */
  method ScanImage(s: Scanner, image: string) returns (r: ScanResult)
    ensures r == ScanOf(s, image)
  {
    var output := s.trivy(s.serverURL, image);
    if output.ExecError? {
      return ScanResult(false, [], 0, Some(ExecFailed));
    }
    r := ParseTrivyOutput(s, output.bytes);
  }

  /** The `{"id", "url"}` maps of a CVE list. */
  function CveMaps(cves: seq<CVE>): (r: seq<map<string, string>>)
    ensures |r| == |cves|
    ensures forall k :: 0 <= k < |cves| ==> r[k] == map["id" := cves[k].id, "url" := cves[k].url]
  {
    seq(|cves|, k requires 0 <= k < |cves| => map["id" := cves[k].id, "url" := cves[k].url])
  }

  /** The summary `ScanImages` gives for one image. */
  function ImageResultOf(s: Scanner, image: string): ImageScanResult {
    var r := ScanOf(s, image);
    ImageScanResult(image, r.count, CveMaps(r.vulnerabilities))
  }

  /** What `ScanImages` returns: one summary per image, in order. */
  function ScanAll(s: Scanner, images: seq<string>): (r: seq<ImageScanResult>)
    ensures |r| == |images|
    ensures forall k :: 0 <= k < |images| ==> r[k] == ImageResultOf(s, images[k])
  {
    seq(|images|, k requires 0 <= k < |images| => ImageResultOf(s, images[k]))
  }

  /** A failed scan is not dropped: its image keeps its entry, with no
      critical CVE, so it can never cause a denial. */
  lemma FailedScanCountsZero(s: Scanner, images: seq<string>, k: nat)
    requires k < |images| && ScanOf(s, images[k]).error.Some?
    ensures ScanAll(s, images)[k] == ImageScanResult(images[k], 0, [])
  {
  }

  /** `ScanImages`: scans each image in turn and summarises each result as
      name, critical count and the id/url of each CVE. */
  method ScanImages(s: Scanner, images: seq<string>) returns (results: seq<ImageScanResult>)
    ensures |results| == |images|
    ensures forall k :: 0 <= k < |images| ==>
      results[k].name == images[k]
      && results[k].criticalCVEs == ScanOf(s, images[k]).count
      && results[k].cves == CveMaps(ScanOf(s, images[k]).vulnerabilities)
    ensures results == ScanAll(s, images)
  {
    results := [];
    for i := 0 to |images|
      invariant |results| == i
      invariant forall k :: 0 <= k < i ==> results[k] == ImageResultOf(s, images[k])
    {
      var scanResult := ScanImage(s, images[i]);
      var cvesMaps: seq<map<string, string>> := [];
      for j := 0 to |scanResult.vulnerabilities|
        invariant cvesMaps == CveMaps(scanResult.vulnerabilities[..j])
      {
        var cve := scanResult.vulnerabilities[j];
        cvesMaps := cvesMaps + [map["id" := cve.id, "url" := cve.url]];
      }
      assert scanResult.vulnerabilities[..|scanResult.vulnerabilities|] == scanResult.vulnerabilities;
      results := results + [ImageScanResult(images[i], scanResult.count, cvesMaps)];
    }
  }
}
