/** The user-facing error texts of the mirror view: the missing-credentials
    message, the classification of exceptions thrown while the AR session is
    constructed, and the text shown for an `error` event of the session. */
module Messages {

  import opened Wrappers

  /** A build-time variable as the bundler supplies it: absent or a string. */
  type EnvValue = Option<string>

  /** JavaScript truthiness of an optional string: absent and "" are false. */
  predicate Truthy(v: EnvValue)
  {
    v.Some? && v.value != []
  }

  /** The three credentials the view needs before it starts the engine. */
  datatype Credentials = Credentials(appId: EnvValue, licenseKey: EnvValue, secretKey: EnvValue)

  /** `APPID && LICENSE_KEY && TOKEN`: every credential is present and non-empty. */
  predicate CredentialsPresent(c: Credentials)
  {
    Truthy(c.appId) && Truthy(c.licenseKey) && Truthy(c.secretKey)
  }

  // The longer texts are written as two literals joined, which leaves their
  // leading characters within reach of the verifier's sequence axioms.
  const MissingCredentials: string := "Please configure your " + "Tencent AR credentials in .env file"

  /** A value caught by the `catch` around session construction. `isError`
      is whether it is an `Error` instance; `name` and `message` are what its
      properties read and are consulted only when it is one. */
  datatype Thrown = Thrown(isError: bool, name: string, message: string)

  /** The four outcomes of classifying a construction exception. */
  datatype InitFailure = CameraDenied | CameraMissing | CameraBusy | Generic(detail: string)

  /** Classification by the exception's name; anything that is not an
      `Error` instance is generic with detail "Unknown error". */
  function Classify(err: Thrown): (f: InitFailure)
    ensures f == CameraDenied <==> err.isError && err.name == "NotAllowedError"
    ensures f == CameraMissing <==> err.isError && err.name == "NotFoundError"
    ensures f == CameraBusy <==> err.isError && err.name == "NotReadableError"
    ensures f.Generic? ==> f.detail == if err.isError then err.message else "Unknown error"
  {
    if err.isError && err.name == "NotAllowedError" then CameraDenied
    else if err.isError && err.name == "NotFoundError" then CameraMissing
    else if err.isError && err.name == "NotReadableError" then CameraBusy
    else Generic(if err.isError then err.message else "Unknown error")
  }

  const DeniedText: string := "Camera access denied. " + "Please allow camera permissions."
  const MissingCameraText: string := "No camera found on this device."
  const BusyText: string := "Camera is already in use " + "by another application."
  const GenericPrefix: string := "Initialization failed: "

  /** The message shown for each outcome. */
  function Describe(f: InitFailure): (m: string)
    ensures f.Generic? ==> m == GenericPrefix + f.detail
  {
    match f
    case CameraDenied => DeniedText
    case CameraMissing => MissingCameraText
    case CameraBusy => BusyText
    case Generic(detail) => GenericPrefix + detail
  }

  /** The text a construction exception leaves in the error state. */
  function ConstructionErrorMessage(err: Thrown): string
  {
    Describe(Classify(err))
  }

  /** A message that starts with `prefix` has it as a prefix. */
  predicate StartsWith(s: string, prefix: string)
  {
    |prefix| <= |s| && s[..|prefix|] == prefix
  }

  /** Different outcomes always show different messages, so the message
      tells the user which of the four cases occurred (and, for the generic
      case, the underlying error text). */
  lemma DescribeInjective(f: InitFailure, g: InitFailure)
    ensures Describe(f) == Describe(g) <==> f == g
  {
    if f != g {
      if f.Generic? && g.Generic? {
        assert Describe(f)[|GenericPrefix|..] == f.detail;
        assert Describe(g)[|GenericPrefix|..] == g.detail;
      } else if f.Generic? || g.Generic? {
        assert Describe(f)[0] != Describe(g)[0];
      } else {
        assert |DeniedText| == 54 && |MissingCameraText| == 31 && |BusyText| == 48;
      }
    }
  }

  /** The joined literals are, character for character, the texts the
      view shows. */
  lemma MissingCredentialsText()
    ensures MissingCredentials == "Please configure your Tencent AR credentials in .env file"
  {
  }

  lemma DeniedTextIsSource()
    ensures Describe(CameraDenied) == "Camera access denied. Please allow camera permissions."
  {
  }

  lemma BusyTextIsSource()
    ensures Describe(CameraBusy) == "Camera is already in use by another application."
  {
  }

  /** A non-Error value is reported as unknown, whatever its name property
      says: the camera-specific messages need an `Error` instance. */
  lemma NonErrorIsUnknown(name: string, message: string)
    ensures ConstructionErrorMessage(Thrown(false, name, message)) == GenericPrefix + "Unknown error"
  {
  }

  /** The payload of the session's `error` event; `message` is absent when
      the payload has no such property. */
  datatype SdkError = SdkError(message: Option<string>)

  const SdkPrefix: string := "AR SDK Error: "
  const BrowserInfix: string := ". Browser: "

  /** `e.message || "Unknown error"`. */
  function SdkReason(e: SdkError): (r: string)
    ensures Truthy(e.message) ==> r == e.message.value
    ensures !Truthy(e.message) ==> r == "Unknown error"
    ensures r != []
  {
    if Truthy(e.message) then e.message.value else "Unknown error"
  }

  /** The text an `error` event leaves in the error state, carrying the
      browser's user-agent string for diagnostics. */
  function SdkErrorMessage(e: SdkError, userAgent: string): (m: string)
    ensures StartsWith(m, SdkPrefix)
    ensures m[|SdkPrefix|..] == SdkReason(e) + BrowserInfix + userAgent
  {
    var m := SdkPrefix + SdkReason(e) + BrowserInfix + userAgent;
    assert m[..|SdkPrefix|] == SdkPrefix;
    assert m[|SdkPrefix|..] == SdkReason(e) + BrowserInfix + userAgent;
    m
  }

  /** A runtime SDK error can never be mistaken for a construction failure
      or for the missing-credentials message. */
  lemma SdkErrorIsDistinct(e: SdkError, userAgent: string, f: InitFailure)
    ensures SdkErrorMessage(e, userAgent) != Describe(f)
    ensures SdkErrorMessage(e, userAgent) != MissingCredentials
  {
    var m := SdkErrorMessage(e, userAgent);
    assert m[0] == 'A';
    assert MissingCredentials[0] == 'P';
    match f
    case Generic(d) => assert Describe(f)[0] == 'I';
    case CameraDenied => assert Describe(f)[0] == 'C';
    case CameraMissing => assert Describe(f)[0] == 'N';
    case CameraBusy => assert Describe(f)[0] == 'C';
  }

  /** Nor can a construction failure be mistaken for missing credentials. */
  lemma ConstructionIsNotMissingCredentials(f: InitFailure)
    ensures Describe(f) != MissingCredentials
  {
    assert MissingCredentials[0] == 'P';
    match f
    case Generic(d) => assert Describe(f)[0] == 'I';
    case CameraDenied => assert Describe(f)[0] == 'C';
    case CameraMissing => assert Describe(f)[0] == 'N';
    case CameraBusy => assert Describe(f)[0] == 'C';
  }
}
