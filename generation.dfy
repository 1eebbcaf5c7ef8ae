/** The generation request's outcome as the submission handler reads it, and
    the notifications it raises. */
module Generation {
  import opened Options

  /** `generateVideo`'s resolved value: `success`, `message` and
      `data.video_url`, each possibly absent (an absent response reads as all
      three absent). */
  datatype GenerateResponse = GenerateResponse(
    success: Option<bool>, message: Option<string>, videoUrl: Option<string>)

  /** A rejection value as the `catch` handler sees it: its `message`, if any,
      and what `JSON.stringify` renders it as (computed by the runtime). */
  datatype Rejection = Rejection(message: Option<string>, stringified: string)

  /** The loading indicator: cleared, or shown with a text and a duration in
      seconds (0 keeps it until it is destroyed). */
  datatype Loading = Cleared | Shown(text: string, seconds: nat)

  /** A success or error toast. A success toast uses the library's default
      duration; an error toast gives its own. */
  datatype Notice = SuccessNotice(text: string) | ErrorNotice(text: string, seconds: nat)

  const LoadingText := "Generating Video, please wait..."
  const SuccessText := "Generate Video Success"
  const FailurePrefix := "Generate Video Failed: "
  const FallbackMessage := "Generate Video Failed"
  const ErrorSeconds: nat := 10

  /** `JSON.stringify` of an `Error` object: none of its own properties is
      enumerable. */
  const StringifiedError := "{}"

  /** The server reported an application-level failure (`success === false`). */
  predicate Rejected(resp: GenerateResponse) {
    resp.success == Some(false)
  }

  /** The error thrown inside the `then` handler on `success === false`:
      `new Error(res.message || 'Generate Video Failed')`. Its message is
      always truthy. */
  function ThrownError(resp: GenerateResponse): (err: Rejection)
    ensures Truthy(err.message)
    ensures Truthy(resp.message) ==> err.message == resp.message
    ensures !Truthy(resp.message) ==> err.message == Some(FallbackMessage)
  {
    Rejection(Some(OrElse(resp.message, FallbackMessage)), StringifiedError)
  }

  /** The `catch` handler's toast: an error of ten seconds whose text is the
      failure prefix followed by the error's message, or by its
      stringification when the message is absent or empty. */
  function CaughtNotice(err: Rejection): (n: Notice)
    ensures n.ErrorNotice? && n.seconds == ErrorSeconds
    ensures |n.text| >= |FailurePrefix| && n.text[..|FailurePrefix|] == FailurePrefix
    ensures Truthy(err.message) ==> n.text == FailurePrefix + err.message.value
    ensures !Truthy(err.message) ==> n.text == FailurePrefix + err.stringified
  {
    ErrorNotice(FailurePrefix + OrElse(err.message, err.stringified), ErrorSeconds)
  }

  /** An application failure surfaces as the error toast
      "Generate Video Failed: " + (message or "Generate Video Failed"): the
      thrown error's stringification never shows. */
  lemma ApplicationFailureNotice(resp: GenerateResponse)
    ensures CaughtNotice(ThrownError(resp)) ==
            ErrorNotice(FailurePrefix + OrElse(resp.message, FallbackMessage), ErrorSeconds)
  {
  }

  /** The video slot after a successful response: `data.video_url` when it is
      truthy, otherwise the slot's previous value. */
  function SlotAfterSuccess(slot: Option<string>, resp: GenerateResponse): (r: Option<string>)
    ensures Truthy(resp.videoUrl) ==> r == resp.videoUrl
    ensures !Truthy(resp.videoUrl) ==> r == slot
    ensures (slot.Some? ==> slot.value != "") ==> (r.Some? ==> r.value != "")
  {
    if Truthy(resp.videoUrl) then resp.videoUrl else slot
  }
}
