/** The records of pkg/types/types.go. */
module Types {
  import opened Wrappers

  /** One vulnerability: its identifier and reference URL. */
  datatype CVE = CVE(id: string, url: string)

  /** Why a scan produced no report: the trivy process failed, or its
      output was not a JSON object. */
  datatype ScanError = ExecFailed | OutputUnparsable

  /** `types.ScanResult`; `error` is the Go `Error` field. */
  datatype ScanResult = ScanResult(safe: bool, vulnerabilities: seq<CVE>, count: int, error: Option<ScanError>)

  /** `types.ImageScanResult`; each CVE map holds the keys "id" and "url". */
  datatype ImageScanResult = ImageScanResult(name: string, criticalCVEs: int, cves: seq<map<string, string>>)

  /** `types.ValidationOutput`; `decision` is "ALLOWED" or "DENIED". */
  datatype ValidationOutput = ValidationOutput(
    deployment: string,
    namespace: string,
    images: seq<ImageScanResult>,
    decision: string)

  const Allowed := "ALLOWED"
  const Denied := "DENIED"
}
