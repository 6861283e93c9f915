/**
 * The analysis button of the desktop client (electron-app/renderer.js): the request body built
 * from the form with fallbacks, the Authorization header decided from the stored session, and
 * the text shown for the reply. The form values, the stored session and the reply are
 * parameters; the button and the output area are the fields of a page object.
 */
module Renderer {
  import opened Wrappers
  import opened Text
  import opened JsNumber
  import opened ReadBack
  import Scoring
  import Auth

  /** The text of the seven inputs. */
  datatype FormFields = FormFields(
    cpu_model: string,
    cpu_speed_ghz: string,
    cores: string,
    ram_gb: string,
    disk_type: string,
    gpu_model: string,
    gpu_vram_gb: string)

  /**
   * The request body: numbers are parsed and fall back when NaN or 0 (speed 1.0, cores 1,
   * RAM 1.0, VRAM 0); an empty disk type becomes "HDD"; the models are sent as typed.
   */
  function BuildPayload(f: FormFields): (p: Scoring.SysInfo)
    ensures p.cpu_model == f.cpu_model && p.gpu_model == f.gpu_model
    ensures p.disk_type != "" && (f.disk_type != "" ==> p.disk_type == f.disk_type)
    ensures p.cpu_speed_ghz != 0.0 && p.cores != 0 && p.ram_gb != 0.0
  {
    Scoring.SysInfo(
      f.cpu_model,
      RealOr(ParseFloat(f.cpu_speed_ghz), 1.0),
      IntOr(ParseInt(f.cores), 1),
      RealOr(ParseFloat(f.ram_gb), 1.0),
      if f.disk_type == "" then "HDD" else f.disk_type,
      if f.gpu_model == "" then "" else f.gpu_model,
      RealOr(ParseFloat(f.gpu_vram_gb), 0.0))
  }

  /** A field that parses to a non-zero number is sent as that number. */
  lemma ParsedNumbersAreSent(f: FormFields, speed: real, cores: int, ram: real, vram: real)
    requires ParseFloat(f.cpu_speed_ghz) == Some(speed) && speed != 0.0
    requires ParseInt(f.cores) == Some(cores) && cores != 0
    requires ParseFloat(f.ram_gb) == Some(ram) && ram != 0.0
    requires ParseFloat(f.gpu_vram_gb) == Some(vram) && vram != 0.0
    ensures BuildPayload(f) == Scoring.SysInfo(f.cpu_model, speed, cores, ram,
                                               BuildPayload(f).disk_type, f.gpu_model, vram)
  {
  }

  /** A field that is not a number, or is 0, is sent as its fallback: `||` does not tell them apart. */
  lemma FallbacksApply(f: FormFields)
    requires ParseFloat(f.cpu_speed_ghz).None? || ParseFloat(f.cpu_speed_ghz) == Some(0.0)
    requires ParseInt(f.cores).None? || ParseInt(f.cores) == Some(0)
    requires ParseFloat(f.ram_gb).None? || ParseFloat(f.ram_gb) == Some(0.0)
    requires ParseFloat(f.gpu_vram_gb).None? || ParseFloat(f.gpu_vram_gb) == Some(0.0)
    requires f.disk_type == ""
    ensures BuildPayload(f) == Scoring.SysInfo(f.cpu_model, 1.0, 1, 1.0, "HDD", f.gpu_model, 0.0)
  {
  }

  /** For instance a typed 0 and a word fall back alike. */
  lemma ZeroAndWordFallBack()
    ensures ParseFloat("0") == Some(0.0) && ParseInt("0") == Some(0)
    ensures ParseFloat("no") == None && ParseInt("no") == None
  {
    NatParsesAsFloat(0);
    IntRoundTrip(0);
    assert NatToString(0) == "0" && IntToString(0) == "0";
    LetterIsNaN("no");
  }

  /** A non-zero core count typed as an integer is sent as that integer. */
  lemma TypedCoresAreSent(f: FormFields, n: int)
    requires n != 0 && f.cores == IntToString(n)
    ensures BuildPayload(f).cores == n
  {
    IntRoundTrip(n);
  }

  /** The stored token, when there is one. */
  function StoredToken(store: map<string, string>): Option<string>
  {
    if "auth_token" in store then Some(store["auth_token"]) else None
  }

  predicate HasAuthorization(h: seq<(string, string)>)
  {
    exists i :: 0 <= i < |h| && h[i].0 == "Authorization"
  }

  /** The request headers: JSON, plus the bearer token when one is stored and guest mode is off. */
  function AuthHeaders(store: map<string, string>): (h: seq<(string, string)>)
    ensures HasAuthorization(h) <==> StoredToken(store).Some? && StoredToken(store).value != "" && !Auth.GuestFlag(store)
    ensures HasAuthorization(h) ==> ("Authorization", "Bearer " + store["auth_token"]) in h
    ensures |h| >= 1 && h[0] == ("Content-Type", "application/json")
  {
    var base := [("Content-Type", "application/json")];
    var token := StoredToken(store);
    if token.Some? && token.value != "" && !Auth.GuestFlag(store) then
      var h := base + [("Authorization", "Bearer " + token.value)];
      assert h[1].0 == "Authorization";
      h
    else base
  }

  /**
   * With the session the auth page leaves behind: after `continueAsGuest` or `logout` no token
   * is sent, and after a login with a non-empty token the token is sent unless the guest flag
   * survived from an earlier guest visit (login does not clear it).
   */
  lemma HeadersAfterSessionChanges(store: map<string, string>, token: string, user: string)
    ensures !HasAuthorization(AuthHeaders(store["is_guest" := "true"]))
    ensures !HasAuthorization(AuthHeaders(store - {"auth_token", "user", "is_guest"}))
    ensures var after := store["auth_token" := token]["user" := user];
      HasAuthorization(AuthHeaders(after)) <==> token != "" && !Auth.GuestFlag(store)
  {
    var after := store["auth_token" := token]["user" := user];
    assert StoredToken(after) == Some(token);
    assert Auth.GuestFlag(after) == Auth.GuestFlag(store);
  }

  /** The reply of a successful analysis: the result, with the score in tenths, and the links. */
  datatype AnalyzeResponse = AnalyzeResponse(
    main_profile: string,
    main_score_tenths: int,
    scores: seq<(string, real)>,
    pdf_url: Option<string>,
    json_url: Option<string>)

  /** The reply the backend's scoring engine gives, as the client reads it. */
  function FromScoreResult(r: Scoring.ScoreResult, pdf: Option<string>, json: Option<string>): AnalyzeResponse
  {
    AnalyzeResponse(Scoring.ProfileName(r.main_profile), (r.main_score * 10.0).Floor,
                    seq(|r.scores|, i requires 0 <= i < |r.scores| => (Scoring.ProfileName(r.scores[i].0), r.scores[i].1)),
                    pdf, json)
  }

  lemma TenthsOfRoundedScore(r: Scoring.ScoreResult, k: int)
    requires r.main_score == k as real / 10.0
    ensures (r.main_score * 10.0).Floor == k
  {
    assert r.main_score * 10.0 == k as real;
  }

  /** The main score printed in the header reads back as exactly the engine's rounded score. */
  lemma MainScorePrintedExactly(info: Scoring.SysInfo, pdf: Option<string>, json: Option<string>)
    ensures var r := Scoring.ScoreSystem(info);
      ParseFloat(TenthsToString(FromScoreResult(r, pdf, json).main_score_tenths)) == Some(r.main_score)
  {
    var r := Scoring.ScoreSystem(info);
    var k := Scoring.RoundTenths(Scoring.ProfileValue(r.main_profile, info));
    TenthsOfRoundedScore(r, k);
    assert FromScoreResult(r, pdf, json).main_score_tenths == k;
    TenthsParseBack(k);
  }

  const Heading: string := "📈 Adecuación por perfiles:\n"
  const DownloadsHeading: string := "\n📎 Descargas:\n"
  const NoUploadsWarning: string := "⚠️ No se subieron archivos a Dropbox.\n"
  const GuestNotice: string := "\n⚠️ Modo invitado: Descarga de archivos deshabilitada.\n"

  /** The first line: the main profile and its score. */
  function Header(r: AnalyzeResponse): string
  {
    "✅ Análisis completado!\n\n🎯 Perfil principal: " + r.main_profile + " (" + TenthsToString(r.main_score_tenths)
    + "%)\n\n"
  }

  /** One line per profile: the fraction as a percentage with one decimal. */
  function ProfileLine(entry: (string, real)): string
  {
    "• " + entry.0 + ": " + ToFixed1(entry.1 * 100.0) + "%\n"
  }

  /** The profile lines, in the order of the reply. */
  function ProfileLines(scores: seq<(string, real)>): string
  {
    if scores == [] then "" else ProfileLines(scores[..|scores| - 1]) + ProfileLine(scores[|scores| - 1])
  }

  /** Concatenation is associative (stated once so the long strings need not be unfolded). */
  lemma AppendAssoc(a: string, b: string, c: string)
    ensures (a + b) + c == a + (b + c)
  {
  }

  /**
   * The lines are written in the order of the scores: the lines of the first `i` profiles are a
   * prefix of the lines of all of them.
   */
  lemma {:induction false} ProfileLinesPrefix(scores: seq<(string, real)>, i: int)
    requires 0 <= i <= |scores|
    ensures ProfileLines(scores[..i]) <= ProfileLines(scores)
    decreases |scores| - i
  {
    if i < |scores| {
      ProfileLinesPrefix(scores, i + 1);
      assert scores[..i + 1][..i] == scores[..i];
      var a := ProfileLines(scores[..i]);
      var b := ProfileLines(scores[..i + 1]);
      assert b == a + ProfileLine(scores[i]);
      assert a <= b;
    } else {
      assert scores[..i] == scores;
    }
  }

  /**
   * The closing part: for a signed-in user the downloads heading, a line per present link and
   * the warning when there is none; for a guest only the guest notice.
   */
  function Closing(isGuest: bool, pdf: Option<string>, json: Option<string>): string
  {
    if isGuest then GuestNotice
    else
      var pdfLine := if Truthy(pdf) then "PDF: " + pdf.value + "\n" else "";
      var jsonLine := if Truthy(json) then "JSON: " + json.value + "\n" else "";
      var warning := if !Truthy(pdf) && !Truthy(json) then NoUploadsWarning else "";
      DownloadsHeading + pdfLine + jsonLine + warning
  }

  /** A guest sees only the guest notice; a signed-in user's part opens with the downloads heading. */
  lemma ClosingHeading(isGuest: bool, pdf: Option<string>, json: Option<string>)
    ensures isGuest ==> Closing(isGuest, pdf, json) == GuestNotice
    ensures !isGuest ==> |Closing(isGuest, pdf, json)| > |DownloadsHeading|
                         && Closing(isGuest, pdf, json)[..|DownloadsHeading|] == DownloadsHeading
  {
    if !isGuest {
      var c := Closing(isGuest, pdf, json);
      var rest := c[|DownloadsHeading|..];
      assert c == DownloadsHeading + rest;
      assert rest != [] by {
        if !Truthy(pdf) && !Truthy(json) {
          assert rest == NoUploadsWarning;
        } else if Truthy(pdf) {
          assert rest[0] == 'P';
        } else {
          assert rest[0] == 'J';
        }
      }
    }
  }

  /** With a PDF link, the PDF line comes right after the downloads heading. */
  lemma ClosingPdfLine(pdf: Option<string>, json: Option<string>)
    requires Truthy(pdf)
    ensures var c := Closing(false, pdf, json);
      |c| >= |DownloadsHeading| && "PDF: " + pdf.value + "\n" <= c[|DownloadsHeading|..]
  {
    var c := Closing(false, pdf, json);
    var line := "PDF: " + pdf.value + "\n";
    var jsonLine := if Truthy(json) then "JSON: " + json.value + "\n" else "";
    assert c == DownloadsHeading + (line + jsonLine);
    assert c[|DownloadsHeading|..] == line + jsonLine;
  }

  /** With a JSON link, the signed-in user's part ends with the JSON line. */
  lemma ClosingJsonLine(pdf: Option<string>, json: Option<string>)
    requires Truthy(json)
    ensures var c := Closing(false, pdf, json);
      var line := "JSON: " + json.value + "\n"; |line| <= |c| && c[|c| - |line|..] == line
  {
    var c := Closing(false, pdf, json);
    var line := "JSON: " + json.value + "\n";
    var pdfLine := if Truthy(pdf) then "PDF: " + pdf.value + "\n" else "";
    assert c == (DownloadsHeading + pdfLine) + line;
  }

  /** A signed-in user gets the no-uploads warning exactly when neither link is present. */
  lemma ClosingWarnsIffNoLinks(pdf: Option<string>, json: Option<string>)
    ensures Closing(false, pdf, json) == DownloadsHeading + NoUploadsWarning <==> !Truthy(pdf) && !Truthy(json)
  {
    var c := Closing(false, pdf, json);
    var pdfLine := if Truthy(pdf) then "PDF: " + pdf.value + "\n" else "";
    var jsonLine := if Truthy(json) then "JSON: " + json.value + "\n" else "";
    var warning := if !Truthy(pdf) && !Truthy(json) then NoUploadsWarning else "";
    assert c == DownloadsHeading + (pdfLine + jsonLine + warning);
    if Truthy(pdf) || Truthy(json) {
      var rest := pdfLine + jsonLine + warning;
      assert c[|DownloadsHeading|..] == rest;
      assert rest[0] == 'P' || rest[0] == 'J';
      assert NoUploadsWarning[0] != 'P' && NoUploadsWarning[0] != 'J';
      assert (DownloadsHeading + NoUploadsWarning)[|DownloadsHeading|] == NoUploadsWarning[0];
    }
  }

  /** The whole result text. */
  function ResultTextOf(r: AnalyzeResponse, isGuest: bool): string
  {
    Header(r) + Heading + ProfileLines(r.scores) + Closing(isGuest, r.pdf_url, r.json_url)
  }

  /**
   * The result text: the header, the heading, a line per profile in the order of `scores`, and
   * the closing part; appended piece by piece as the handler does.
   */
  method ResultText(r: AnalyzeResponse, isGuest: bool) returns (text: string)
    ensures text == ResultTextOf(r, isGuest)
  {
    text := Header(r);
    text := text + Heading;
    ghost var opening := text;
    for i := 0 to |r.scores|
      invariant text == opening + ProfileLines(r.scores[..i])
    {
      assert r.scores[..i + 1][..i] == r.scores[..i];
      AppendAssoc(opening, ProfileLines(r.scores[..i]), ProfileLine(r.scores[i]));
      text := text + ProfileLine(r.scores[i]);
    }
    assert r.scores[..|r.scores|] == r.scores;
    var tail := ClosingText(isGuest, r.pdf_url, r.json_url);
    text := text + tail;
  }

  /** The closing part, appended line by line as the handler does. */
  method ClosingText(isGuest: bool, pdf: Option<string>, json: Option<string>) returns (tail: string)
    ensures tail == Closing(isGuest, pdf, json)
  {
    tail := "";
    if !isGuest {
      ghost var pdfLine := if Truthy(pdf) then "PDF: " + pdf.value + "\n" else "";
      ghost var jsonLine := if Truthy(json) then "JSON: " + json.value + "\n" else "";
      tail := tail + DownloadsHeading;
      if Truthy(pdf) {
        tail := tail + ("PDF: " + pdf.value + "\n");
      }
      assert tail == DownloadsHeading + pdfLine;
      if Truthy(json) {
        tail := tail + ("JSON: " + json.value + "\n");
      }
      assert tail == DownloadsHeading + pdfLine + jsonLine;
      if !Truthy(pdf) && !Truthy(json) {
        tail := tail + NoUploadsWarning;
      }
    } else {
      tail := tail + GuestNotice;
    }
  }

  const ErrorPrefix: string := "❌ Error conectando con el backend:\n"
  const AnalysisFailedMessage: string := "Error en el análisis"

  /** What the request produced: a result, a refusal with its detail, or a thrown error's text. */
  datatype Exchange =
    | Answered(response: AnalyzeResponse)
    | Rejected(detail: Option<string>)
    | Thrown(errorText: string)

  /** The text for a refusal: the detail, or the default message, as an `Error`. */
  function RejectionText(detail: Option<string>): (t: string)
    ensures |t| > |ErrorPrefix + "Error: "| && t[..|ErrorPrefix + "Error: "|] == ErrorPrefix + "Error: "
    ensures detail.Some? && detail.value != "" ==> t[|ErrorPrefix + "Error: "|..] == detail.value
    ensures (detail.None? || detail.value == "") ==> t[|ErrorPrefix + "Error: "|..] == AnalysisFailedMessage
  {
    ErrorPrefix + "Error: " + Auth.DetailOr(detail, AnalysisFailedMessage)
  }

  /** What the output area shows once the request is over. */
  function ShownText(exchange: Exchange, isGuest: bool): string
  {
    match exchange
    case Answered(response) => ResultTextOf(response, isGuest)
    case Rejected(detail) => RejectionText(detail)
    case Thrown(errorText) => ErrorPrefix + errorText
  }

  /** The text for the output area, computed as the handler does. */
  method OutcomeText(exchange: Exchange, isGuest: bool) returns (text: string)
    ensures text == ShownText(exchange, isGuest)
    ensures exchange.Answered? ==> text == ResultTextOf(exchange.response, isGuest)
    ensures exchange.Rejected? ==> text == RejectionText(exchange.detail)
    ensures exchange.Thrown? ==> text == ErrorPrefix + exchange.errorText
  {
    match exchange
    case Answered(response) =>
      text := ResultText(response, isGuest);
    case Rejected(detail) =>
      text := RejectionText(detail);
    case Thrown(errorText) =>
      text := ErrorPrefix + errorText;
  }

  /** The page: the analysis button and the output area. */
  class AnalyzePage {
    var buttonDisabled: bool
    var output: string

    constructor ()
      ensures !buttonDisabled && output == ""
    {
      buttonDisabled := false;
      output := "";
    }

    /**
     * The click handler: disables the button, builds the body and the headers, and leaves the
     * result text, the refusal or the error in the output area with the button enabled again.
     */
    method OnClick(f: FormFields, store: map<string, string>, exchange: Exchange)
      returns (payload: Scoring.SysInfo, headers: seq<(string, string)>)
      modifies this
      ensures payload == BuildPayload(f) && headers == AuthHeaders(store)
      ensures !buttonDisabled
      ensures output == ShownText(exchange, Auth.GuestFlag(store))
    {
      buttonDisabled := true;
      output := "🔄 Analizando tu PC...";
      payload := BuildPayload(f);
      headers := AuthHeaders(store);
      output := OutcomeText(exchange, Auth.GuestFlag(store));
      buttonDisabled := false;
    }
  }
}
