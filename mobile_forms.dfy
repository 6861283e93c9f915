/**
 * The two form checks of the mobile app (AnalizaTuPc/App.js) that run before anything is sent:
 * the manual hardware form and the registration form. A form field is the text it holds; the
 * empty string is falsy.
 */
module MobileForms {
  import LocalAnalysis

  /** What a form check decided: an alert with a message, or go ahead. */
  datatype Verdict = Alert(message: string) | Proceed

  /** The fields `handleManualSubmit` insists on; disk type and VRAM are optional. */
  predicate RequiredFieldsFilled(d: LocalAnalysis.AnalysisData)
  {
    d.cpu_model != "" && d.cpu_speed_ghz != "" && d.cores != "" && d.ram_gb != "" && d.gpu_model != ""
  }

  /** `handleManualSubmit`: the form is analysed only when every required field is filled in. */
  function ManualSubmit(d: LocalAnalysis.AnalysisData): (v: Verdict)
    ensures v == Proceed <==>
      d.cpu_model != "" && d.cpu_speed_ghz != "" && d.cores != "" && d.ram_gb != "" && d.gpu_model != ""
    ensures v != Proceed ==> v == Alert("Por favor completa todos los campos obligatorios")
  {
    if !RequiredFieldsFilled(d) then Alert("Por favor completa todos los campos obligatorios")
    else Proceed
  }

  /** Disk type and VRAM never decide whether the form is accepted. */
  lemma OptionalFieldsIgnored(d: LocalAnalysis.AnalysisData, disk: string, vram: string)
    ensures ManualSubmit(d.(disk_type := disk, gpu_vram_gb := vram)) == ManualSubmit(d)
  {
  }

  /** The registration form of the mobile app. */
  datatype RegisterForm = RegisterForm(username: string, email: string, password: string, confirmPassword: string)

  const EmptyMessage: string := "Completa todos los campos"
  const MismatchMessage: string := "Las contraseñas no coinciden"

  /**
   * `handleRegister`: first the emptiness check on username, email and password (the
   * confirmation is not part of it), then the mismatch check; no length rule.
   */
  function Register(f: RegisterForm): (v: Verdict)
    ensures v == Proceed <==> f.username != "" && f.email != "" && f.password != "" && f.password == f.confirmPassword
    ensures (f.username == "" || f.email == "" || f.password == "") ==> v == Alert(EmptyMessage)
  {
    if f.username == "" || f.email == "" || f.password == "" then Alert(EmptyMessage)
    else if f.password != f.confirmPassword then Alert(MismatchMessage)
    else Proceed
  }

  /**
   * The emptiness check comes first: a form with an empty field and mismatched passwords reports
   * the empty field; the mismatch is reported only once the three fields are filled.
   */
  lemma RegisterEmptyBeforeMismatch(f: RegisterForm)
    ensures Register(f) == Alert(MismatchMessage) <==>
      f.username != "" && f.email != "" && f.password != "" && f.password != f.confirmPassword
  {
  }

  /** An empty confirmation is caught, but as a mismatch, not as an empty field. */
  lemma EmptyConfirmationIsMismatch(f: RegisterForm)
    requires f.username != "" && f.email != "" && f.password != "" && f.confirmPassword == ""
    ensures Register(f) == Alert(MismatchMessage)
  {
  }
}
