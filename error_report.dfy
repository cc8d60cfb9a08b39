/** The error reporter, `showError`: what a failed request or a thrown error prints. */
module ErrorReport {

  /**
   * The rejection `showError` receives: an HTTP error that carries a
   * response (its status, the error's message, the response's status
   * text), or any other error, of which only its printed form is kept.
   */
  datatype Failure =
    | ApiError(status: int, message: string, statusText: string)
    | ScriptError(description: string)

  const MinLengthHint := "City names must be at least 3 characters long."
  const KeyHint := "Check your API_KEY in the .env file"
  const SignupHint := "or apply for at API_KEY at https://weatherapi.com and add it to your .env file.\n"

  /** The troubleshooting lines for an HTTP status: one for 400, two for 401, none otherwise. */
  function Hints(status: int): (hints: seq<string>)
    ensures |hints| == (if status == 400 then 1 else if status == 401 then 2 else 0)
    ensures status == 400 ==> hints == [MinLengthHint]
    ensures status == 401 ==> hints == [KeyHint, SignupHint]
  {
    match status
    case 400 => [MinLengthHint]
    case 401 => [KeyHint, SignupHint]
    case _ => []
  }

  /** The lines `showError` prints. */
  function ShowError(e: Failure): (lines: seq<string>)
    ensures |lines| >= 1
    ensures e.ApiError? ==> lines == [e.message + ": " + e.statusText] + Hints(e.status)
    ensures e.ScriptError? ==> lines == ["Error:" + " " + e.description]
  {
    match e
    case ApiError(status, message, statusText) => [message + ": " + statusText] + Hints(status)
    case ScriptError(description) => ["Error:" + " " + description]
  }

  /**
   * Hints appear only for an HTTP error with status 400 or 401; every
   * other failure prints exactly one line.
   */
  lemma HintsOnlyFor400And401(e: Failure)
    ensures |ShowError(e)| > 1 <==> e.ApiError? && (e.status == 400 || e.status == 401)
    ensures e.ApiError? && e.status == 401 ==> KeyHint in ShowError(e) && SignupHint in ShowError(e)
    ensures e.ApiError? && e.status == 400 ==> MinLengthHint in ShowError(e)
  {
  }
}
