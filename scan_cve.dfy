/** validator/scancve.go: the older trivy scan. Its walk over the decoded
    report uses unchecked type assertions, so a report of the wrong shape
    panics; the model makes that panic an explicit outcome. The same walk,
    with a wider severity filter and no severity flag on the command line,
    is used by main.go. */
module ScanCve {
  import opened Wrappers
  import opened Api
  import opened Json
  import opened Text
  import Scanner

  /** How running trivy ended: a failure with its error text, or stdout. */
  datatype Run = RunFailed(reason: string) | Ran(out: seq<byte>)

  /** The trivy command, by its argument list, and `json.Unmarshal` into
      `map[string]interface{}` with its error text. */
  datatype Trivy = Trivy(
    exec: seq<string> -> Run,
    unmarshal: seq<byte> -> Result<JsonObject, string>)

  /** A Go call that either returns or panics. */
  datatype Outcome<T> = Returned(value: T) | Panicked

  /** The three results of `scanImageWithTrivy`: ok, the joined findings
      and the error. */
  datatype Verdict = Verdict(ok: bool, vulns: string, err: Option<string>)

  /** Which severities are reported, and how trivy is invoked for them:
      this file asks trivy for CRITICAL only and keeps CRITICAL; main.go
      asks for everything and keeps HIGH and CRITICAL. */
  datatype Selection = CriticalOnly | HighOrCritical

  function Keep(sel: Selection): set<string> {
    match sel
    case CriticalOnly => {"CRITICAL"}
    case HighOrCritical => {"HIGH", "CRITICAL"}
  }

  const ServerURL := "http://trivy-server-service.default.svc:8080"

  function Args(sel: Selection, image: string): seq<string> {
    match sel
    case CriticalOnly =>
      ["image", "--scanners", "vuln", "--severity", "CRITICAL", "--server", ServerURL, "--format", "json", image]
    case HighOrCritical =>
      ["image", "--scanners", "vuln", "--server", ServerURL, "--format", "json", image]
  }

  /** The message recorded for one kept vulnerability. */
  function Finding(id: string): (m: string)
    ensures m != "" && m[|m| - 1] == '\n'
  {
    "   - \U{1F525} " + id + "\n"
  }

  /** An entry whose severity is kept (compared exactly, case included). */
  predicate Kept(v: Json, sel: Selection) {
    v.JObject? && StringAt(v.fields, "Severity").Some? && StringAt(v.fields, "Severity").value in Keep(sel)
  }

  /** One vulnerability entry: it must be an object with a string Severity,
      and a kept one must have a string VulnerabilityID; otherwise the
      assertion panics. */
  function EntryFinding(v: Json, sel: Selection): (r: Outcome<seq<string>>)
    ensures r.Panicked? <==>
      !v.JObject? || StringAt(v.fields, "Severity").None? || (Kept(v, sel) && StringAt(v.fields, "VulnerabilityID").None?)
    ensures r.Returned? ==> (r.value == [] <==> !Kept(v, sel)) && |r.value| <= 1
    ensures r.Returned? && Kept(v, sel) ==> r.value == [Finding(StringAt(v.fields, "VulnerabilityID").value)]
  {
    match v
    case JObject(vmap) =>
      (match StringAt(vmap, "Severity")
       case None => Panicked
       case Some(severity) =>
         if severity in Keep(sel) then
           match StringAt(vmap, "VulnerabilityID")
           case None => Panicked
           case Some(id) => Returned([Finding(id)])
         else Returned([]))
    case _ => Panicked
  }

  /** Sequencing of two walks: a panic in either is a panic. */
  function Then(a: Outcome<seq<string>>, b: Outcome<seq<string>>): (r: Outcome<seq<string>>)
    ensures r.Panicked? <==> a.Panicked? || b.Panicked?
    ensures r.Returned? ==> r.value == a.value + b.value
  {
    if a.Panicked? || b.Panicked? then Panicked else Returned(a.value + b.value)
  }

  function EntriesFindings(vs: seq<Json>, sel: Selection): Outcome<seq<string>> {
    if |vs| == 0 then Returned([]) else Then(EntriesFindings(vs[..|vs| - 1], sel), EntryFinding(vs[|vs| - 1], sel))
  }

  /** One element of Results: it must be an object; a Vulnerabilities
      value that is not a list is skipped. */
  function ResultFindings(r: Json, sel: Selection): (o: Outcome<seq<string>>)
    ensures r.JObject? ==> o == EntriesFindings(Scanner.ResultEntries(r), sel)
    ensures !r.JObject? ==> o.Panicked?
  {
    match r
    case JObject(rmap) =>
      (match ListAt(rmap, "Vulnerabilities")
       case None => Returned([])
       case Some(vs) => EntriesFindings(vs, sel))
    case _ => Panicked
  }

  function ResultsFindings(rs: seq<Json>, sel: Selection): Outcome<seq<string>> {
    if |rs| == 0 then Returned([]) else Then(ResultsFindings(rs[..|rs| - 1], sel), ResultFindings(rs[|rs| - 1], sel))
  }

  /** The whole report: a Results value that is not a list means no
      findings. */
  function ReportFindings(report: JsonObject, sel: Selection): Outcome<seq<string>> {
    match ListAt(report, "Results")
    case None => Returned([])
    case Some(rs) => ResultsFindings(rs, sel)
  }

  /** A list of entries panics exactly when one of its entries does. */
  lemma {:induction false} EntriesPanic(vs: seq<Json>, sel: Selection)
    ensures EntriesFindings(vs, sel).Panicked? <==> exists j :: 0 <= j < |vs| && EntryFinding(vs[j], sel).Panicked?
  {
    if |vs| > 0 {
      var init := vs[..|vs| - 1];
      EntriesPanic(init, sel);
      assert forall j :: 0 <= j < |init| ==> init[j] == vs[j];
    }
  }

  /** Results panic exactly when one of the results does. */
  lemma {:induction false} ResultsPanic(rs: seq<Json>, sel: Selection)
    ensures ResultsFindings(rs, sel).Panicked? <==> exists i :: 0 <= i < |rs| && ResultFindings(rs[i], sel).Panicked?
  {
    if |rs| > 0 {
      var init := rs[..|rs| - 1];
      ResultsPanic(init, sel);
      assert forall i :: 0 <= i < |init| ==> init[i] == rs[i];
    }
  }

  /** Without a panic, the findings of a list are exactly the messages of
      its kept entries. */
  lemma {:induction false} EntriesMembers(vs: seq<Json>, sel: Selection, m: string)
    requires EntriesFindings(vs, sel).Returned?
    ensures m in EntriesFindings(vs, sel).value <==> exists j :: 0 <= j < |vs| && EntryFinding(vs[j], sel) == Returned([m])
  {
    if |vs| > 0 {
      var init := vs[..|vs| - 1];
      EntriesMembers(init, sel, m);
      assert forall j :: 0 <= j < |init| ==> init[j] == vs[j];
      var last := EntryFinding(vs[|vs| - 1], sel);
      assert m in last.value <==> last == Returned([m]);
    }
  }

  /** Every finding is one non-empty message line. */
  lemma {:induction false} EntriesLines(vs: seq<Json>, sel: Selection)
    requires EntriesFindings(vs, sel).Returned?
    ensures forall k :: 0 <= k < |EntriesFindings(vs, sel).value| ==> IsLine(EntriesFindings(vs, sel).value[k])
  {
    if |vs| > 0 {
      EntriesLines(vs[..|vs| - 1], sel);
    }
  }

  predicate IsLine(m: string) {
    m != "" && m[|m| - 1] == '\n'
  }

  lemma {:induction false} ResultsLines(rs: seq<Json>, sel: Selection)
    requires ResultsFindings(rs, sel).Returned?
    ensures forall k :: 0 <= k < |ResultsFindings(rs, sel).value| ==> IsLine(ResultsFindings(rs, sel).value[k])
  {
    if |rs| > 0 {
      ResultsLines(rs[..|rs| - 1], sel);
      var last := rs[|rs| - 1];
      if last.JObject? {
        EntriesLines(Scanner.ResultEntries(last), sel);
      }
    }
  }

  /** Without a panic, a list yields no finding exactly when no entry is
      kept. */
  lemma EntriesEmpty(vs: seq<Json>, sel: Selection)
    requires EntriesFindings(vs, sel).Returned?
    ensures EntriesFindings(vs, sel).value == [] <==> forall j :: 0 <= j < |vs| ==> !Kept(vs[j], sel)
  {
    var msgs := EntriesFindings(vs, sel).value;
    EntriesPanic(vs, sel);
    if msgs != [] {
      EntriesMembers(vs, sel, msgs[0]);
    }
    if exists j :: 0 <= j < |vs| && Kept(vs[j], sel) {
      var j :| 0 <= j < |vs| && Kept(vs[j], sel);
      var m := Finding(StringAt(vs[j].fields, "VulnerabilityID").value);
      EntriesMembers(vs, sel, m);
    }
  }

  predicate KeptIn(r: Json, sel: Selection) {
    exists j :: 0 <= j < |Scanner.ResultEntries(r)| && Kept(Scanner.ResultEntries(r)[j], sel)
  }

  /** Without a panic, Results yield no finding exactly when no result
      holds a kept entry. */
  lemma {:induction false} ResultsEmpty(rs: seq<Json>, sel: Selection)
    requires ResultsFindings(rs, sel).Returned?
    ensures ResultsFindings(rs, sel).value == [] <==> forall i :: 0 <= i < |rs| ==> !KeptIn(rs[i], sel)
  {
    if |rs| > 0 {
      var init := rs[..|rs| - 1];
      ResultsEmpty(init, sel);
      assert forall i :: 0 <= i < |init| ==> init[i] == rs[i];
      var last := rs[|rs| - 1];
      assert last.JObject?;
      EntriesEmpty(Scanner.ResultEntries(last), sel);
    }
  }

  /** The inner walk over one Vulnerabilities list, with its early exit
      at the first failed assertion. */
  method CollectEntries(vs: seq<Json>, sel: Selection) returns (r: Outcome<seq<string>>)
    ensures r == EntriesFindings(vs, sel)
  {
    var vulns: seq<string> := [];
    for j := 0 to |vs|
      invariant EntriesFindings(vs[..j], sel) == Returned(vulns)
    {
      assert vs[..j + 1][..j] == vs[..j];
      if !vs[j].JObject? {
        EntriesPanic(vs, sel);
        return Panicked;
      }
      var vmap := vs[j].fields;
      var severity := StringAt(vmap, "Severity");
      if severity.None? {
        EntriesPanic(vs, sel);
        return Panicked;
      }
      if severity.value in Keep(sel) {
        var id := StringAt(vmap, "VulnerabilityID");
        if id.None? {
          EntriesPanic(vs, sel);
          return Panicked;
        }
        vulns := vulns + [Finding(id.value)];
      } else {
        assert vulns + [] == vulns;
      }
    }
    assert vs[..|vs|] == vs;
    return Returned(vulns);
  }

  /** The walk over the decoded report: every result, then every entry of
      its Vulnerabilities list. */
  method CollectFindings(report: JsonObject, sel: Selection) returns (r: Outcome<seq<string>>)
    ensures r == ReportFindings(report, sel)
  {
    var vulns: seq<string> := [];
    var results := ListAt(report, "Results");
    if results.None? {
      return Returned(vulns);
    }
    var rs := results.value;
    for i := 0 to |rs|
      invariant ResultsFindings(rs[..i], sel) == Returned(vulns)
    {
      assert rs[..i + 1][..i] == rs[..i];
      if !rs[i].JObject? {
        ResultsPanic(rs, sel);
        return Panicked;
      }
      var vlist := ListAt(rs[i].fields, "Vulnerabilities");
      var found: Outcome<seq<string>> := Returned([]);
      if vlist.Some? {
        found := CollectEntries(vlist.value, sel);
      }
      assert found == ResultFindings(rs[i], sel);
      if found.Panicked? {
        ResultsPanic(rs, sel);
        return Panicked;
      }
      vulns := vulns + found.value;
    }
    assert rs[..|rs|] == rs;
    return Returned(vulns);
  }

  /** What `scanImageWithTrivy` returns, or that it panics. */
  function ScanOf(t: Trivy, sel: Selection, image: string): Outcome<Verdict> {
    match t.exec(Args(sel, image))
    case RunFailed(e) => Returned(Verdict(false, "", Some("trivy scan failed for " + image + ": " + e)))
    case Ran(out) =>
      match t.unmarshal(out)
      case Failure(e) => Returned(Verdict(false, "", Some("failed to parse trivy output: " + e)))
      case Success(report) =>
        match ReportFindings(report, sel)
        case Panicked => Panicked
        case Returned(msgs) => if |msgs| > 0 then Returned(Verdict(false, Join(msgs, ","), None)) else Returned(Verdict(true, "", None))
  }

  /** After a clean run, the image is reported safe exactly when no result
      holds a kept entry, and an unsafe image always has a non-empty
      finding text; a failed run or decode is never safe. */
  lemma ScanVerdict(t: Trivy, sel: Selection, image: string)
    requires ScanOf(t, sel, image).Returned?
    ensures var v := ScanOf(t, sel, image).value;
      && (v.err.Some? ==> !v.ok && v.vulns == "")
      && (v.err.None? ==>
            var report := t.unmarshal(t.exec(Args(sel, image)).out).value;
            (v.ok <==> ListAt(report, "Results").None? || forall i :: 0 <= i < |ListAt(report, "Results").value| ==> !KeptIn(ListAt(report, "Results").value[i], sel)))
      && (!v.ok && v.err.None? ==> v.vulns != "")
  {
    var v := ScanOf(t, sel, image).value;
    if v.err.None? {
      var report := t.unmarshal(t.exec(Args(sel, image)).out).value;
      var results := ListAt(report, "Results");
      if results.Some? {
        ResultsEmpty(results.value, sel);
        ResultsLines(results.value, sel);
      }
      var msgs := ReportFindings(report, sel).value;
      if |msgs| > 0 {
        JoinNonEmpty(msgs, ",");
      }
    }
  }

  /** `scanImageWithTrivy` over a selection. */
  method Scan(t: Trivy, sel: Selection, image: string) returns (r: Outcome<Verdict>)
    ensures r == ScanOf(t, sel, image)
  {
    var run := t.exec(Args(sel, image));
    if run.RunFailed? {
      return Returned(Verdict(false, "", Some("trivy scan failed for " + image + ": " + run.reason)));
    }
    var result := t.unmarshal(run.out);
    if result.Failure? {
      return Returned(Verdict(false, "", Some("failed to parse trivy output: " + result.error)));
    }
    var vulns := CollectFindings(result.value, sel);
    if vulns.Panicked? {
      return Panicked;
    }
    if |vulns.value| > 0 {
      return Returned(Verdict(false, Join(vulns.value, ","), None));
    }
    return Returned(Verdict(true, "", None));
  }

  /** This file's `scanImageWithTrivy`: CRITICAL only. */
  method ScanImageWithTrivy(t: Trivy, image: string) returns (r: Outcome<Verdict>)
    ensures r == ScanOf(t, CriticalOnly, image)
  {
    r := Scan(t, CriticalOnly, image);
  }

  /** Unlike the EqualFold check of pkg/webhook/scanner.go, this walk
      compares the severity exactly: a lower-case "critical" entry is a
      CVE there and no finding here. */
  lemma SeverityCaseMatters(id: string)
    ensures var v := JObject(map["Severity" := JString("critical"), "VulnerabilityID" := JString(id)]);
      && Scanner.EntryCve(v).Some?
      && EntryFinding(v, CriticalOnly) == Returned([])
      && EntryFinding(v, HighOrCritical) == Returned([])
  {
    var v := JObject(map["Severity" := JString("critical"), "VulnerabilityID" := JString(id)]);
    assert StringAt(v.fields, "Severity") == Some("critical");
    assert Scanner.IsCritical("critical") by { Scanner.IsCriticalExamples(); }
    assert "critical" != "CRITICAL" by { assert "critical"[0] != "CRITICAL"[0]; }
    assert "critical" != "HIGH" by { assert |"critical"| != |"HIGH"|; }
  }
}
