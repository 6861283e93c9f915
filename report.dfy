/**
 * The `/api/analyze` handler of backend/main.py around the scoring engine: artifact names derived
 * from one timestamp, the temporary files it writes and removes, and the uploads it makes only
 * when a storage token is configured. The clock, the file system and the storage service are
 * parameters or abstract state here.
 */
module Report {
  import opened Wrappers
  import opened Text
  import opened Scoring

  /** The shared stem of both artifacts of one request. */
  function ReportStem(timestamp: int): string
  {
    "report_" + IntToString(timestamp)
  }

  function JsonFileName(timestamp: int): string
  {
    ReportStem(timestamp) + ".json"
  }

  function PdfFileName(timestamp: int): string
  {
    ReportStem(timestamp) + ".pdf"
  }

  /** The folder of the storage service under which both artifacts are uploaded. */
  const RemoteFolder: string := "/AnalizaTuPc/"

  function RemotePath(name: string): string
  {
    RemoteFolder + name
  }

  /** The Content-Disposition header of the streamed PDF response. */
  function ContentDisposition(timestamp: int): string
  {
    "attachment; filename=" + PdfFileName(timestamp)
  }

  /**
   * Both artifacts share the `report_{timestamp}` stem and differ only in their extension; the
   * streamed PDF is announced under the same name it is uploaded under.
   */
  lemma ArtifactNamesShareStem(timestamp: int)
    ensures JsonFileName(timestamp)[..|ReportStem(timestamp)|] == ReportStem(timestamp)
    ensures PdfFileName(timestamp)[..|ReportStem(timestamp)|] == ReportStem(timestamp)
    ensures JsonFileName(timestamp) != PdfFileName(timestamp)
    ensures RemotePath(PdfFileName(timestamp)) != RemotePath(JsonFileName(timestamp))
    ensures ContentDisposition(timestamp)[|"attachment; filename="|..] == PdfFileName(timestamp)
  {
    var j, p := JsonFileName(timestamp), PdfFileName(timestamp);
    assert |j| != |p|;
    assert |RemotePath(p)| != |RemotePath(j)|;
  }

  /** Different timestamps never produce the same file name. */
  lemma FileNameDeterminesTimestamp(t1: int, t2: int)
    requires JsonFileName(t1) == JsonFileName(t2) || PdfFileName(t1) == PdfFileName(t2)
    ensures t1 == t2
  {
    var a, b := IntToString(t1), IntToString(t2);
    var ext := if JsonFileName(t1) == JsonFileName(t2) then ".json" else ".pdf";
    var n1, n2 := "report_" + a + ext, "report_" + b + ext;
    assert n1 == n2;
    assert |a| == |b|;
    assert a == n1[7..7 + |a|];
    assert b == n2[7..7 + |b|];
    IntToStringInjective(t1, t2);
  }

  /** One file sent to the storage service: the local file and the remote path it is stored at. */
  datatype Upload = Upload(local: string, remote: string)

  /** The uploads one request makes: the PDF, then the JSON, and none without a token. */
  function UploadPlan(timestamp: int, token: Option<string>): seq<Upload>
  {
    if Truthy(token) then
      [Upload(PdfFileName(timestamp), RemotePath(PdfFileName(timestamp))),
       Upload(JsonFileName(timestamp), RemotePath(JsonFileName(timestamp)))]
    else []
  }

  /**
   * Every upload stores a local artifact of this request under the remote folder with the same
   * name, and there are uploads exactly when a token is configured.
   */
  lemma UploadPlanTargets(timestamp: int, token: Option<string>)
    ensures UploadPlan(timestamp, token) != [] <==> Truthy(token)
    ensures forall u :: u in UploadPlan(timestamp, token) ==>
      u.remote == RemoteFolder + u.local
      && (u.local == PdfFileName(timestamp) || u.local == JsonFileName(timestamp))
  {
  }

  /** The server process: its configured token, its working directory and what it has uploaded. */
  class Backend {
    const dropboxToken: Option<string>
    var workDir: set<string>
    var uploads: seq<Upload>

    constructor (token: Option<string>)
      ensures dropboxToken == token && workDir == {} && uploads == []
    {
      dropboxToken := token;
      workDir := {};
      uploads := [];
    }

    /**
     * `analyze`: scores the record, writes `report_{ts}.json`, and with a token also writes the
     * PDF, uploads the PDF and then the JSON, and removes the PDF; finally removes the JSON.
     * `pdfLink` and `jsonLink` stand for what the two upload calls return (None on failure).
     * Both URLs stay None without a token, and no artifact of the request is left on disk.
     */
    method Analyze(info: SysInfo, timestamp: int, pdfLink: Option<string>, jsonLink: Option<string>)
      returns (result: ScoreResult, disposition: string, pdfUrl: Option<string>, jsonUrl: Option<string>)
      modifies this
      ensures result == ScoreSystem(info)
      ensures disposition == ContentDisposition(timestamp)
      ensures workDir == old(workDir) - {JsonFileName(timestamp)}
                         - (if Truthy(dropboxToken) then {PdfFileName(timestamp)} else {})
      ensures uploads == old(uploads) + UploadPlan(timestamp, dropboxToken)
      ensures !Truthy(dropboxToken) ==> pdfUrl == None && jsonUrl == None
      ensures Truthy(dropboxToken) ==> pdfUrl == pdfLink && jsonUrl == jsonLink
    {
      result := ScoreSystem(info);
      var jsonFile := JsonFileName(timestamp);
      workDir := workDir + {jsonFile};
      pdfUrl, jsonUrl := None, None;
      if Truthy(dropboxToken) {
        var tempPdf := PdfFileName(timestamp);
        workDir := workDir + {tempPdf};
        uploads := uploads + [Upload(tempPdf, RemotePath(tempPdf))];
        pdfUrl := pdfLink;
        uploads := uploads + [Upload(jsonFile, RemotePath(jsonFile))];
        jsonUrl := jsonLink;
        workDir := workDir - {tempPdf};
      }
      workDir := workDir - {jsonFile};
      disposition := ContentDisposition(timestamp);
    }
  }
}
