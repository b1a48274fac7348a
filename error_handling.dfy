/**
 * The error hierarchy of the assistant and the mapping from any thrown value
 * to the sentence shown to the user.
 *
 * `ArcadError` and its three subclasses become one datatype whose `kind`
 * records the class `instanceof` would test; each class constructor becomes
 * a function that fixes `kind`, `name` and `code`.
 */
module ErrorHandling {
  import opened Wrappers

  datatype ErrorKind = Base | Network | Configuration | AIModel

  /** A JavaScript `Error` outside the hierarchy, such as an `AxiosError` (which may carry a `code`). */
  datatype JsError = JsError(name: string, message: string, code: Option<string>)

  datatype ArcadError = ArcadError(
    kind: ErrorKind,
    name: string,
    message: string,
    code: Option<string>,
    originalError: Option<JsError>)

  /** A value that reached a `catch`: an error of the hierarchy, another `Error`, or anything else. */
  datatype Thrown = Arcad(arcadError: ArcadError) | Plain(plainError: JsError) | NotAnError

  /** `new ArcadError(message, code, originalError)`. */
  function NewArcadError(message: string, code: Option<string>, originalError: Option<JsError>): (e: ArcadError)
    ensures e.kind == Base && e.name == "ArcadError"
    ensures e.message == message && e.code == code && e.originalError == originalError
  {
    ArcadError(Base, "ArcadError", message, code, originalError)
  }

  /** `new NetworkError(message, axiosError)`: the code is the axios error's code, if any. */
  function NewNetworkError(message: string, originalError: Option<JsError>): (e: ArcadError)
    ensures e.kind == Network && e.name == "NetworkError" && e.message == message
    ensures e.originalError == originalError
    ensures originalError.None? ==> e.code.None?
    ensures originalError.Some? ==> e.code == originalError.value.code
  {
    var code := if originalError.Some? then originalError.value.code else None;
    ArcadError(Network, "NetworkError", message, code, originalError)
  }

  const ConfigErrorCode: string := "CONFIG_ERROR"

  /** `new ConfigurationError(message)`: always the code `'CONFIG_ERROR'`. */
  function NewConfigurationError(message: string): (e: ArcadError)
    ensures e.kind == Configuration && e.name == "ConfigurationError" && e.message == message
    ensures e.code == Some(ConfigErrorCode) && e.originalError.None?
  {
    ArcadError(Configuration, "ConfigurationError", message, Some(ConfigErrorCode), None)
  }

  /** `new AIModelError(message, code)`. */
  function NewAIModelError(message: string, code: Option<string>): (e: ArcadError)
    ensures e.kind == AIModel && e.name == "AIModelError" && e.message == message
    ensures e.code == code && e.originalError.None?
  {
    ArcadError(AIModel, "AIModelError", message, code, None)
  }

  const UnknownErrorMessage: string := "An unknown error occurred"

  /** `ArcadError.fromError`: errors of the hierarchy pass through, other errors are wrapped. */
  function FromError(thrown: Thrown): (e: ArcadError)
    ensures thrown.Arcad? ==> e == thrown.arcadError
    ensures thrown.Plain? ==>
      e.kind == Base && e.name == "ArcadError" && e.message == thrown.plainError.message
      && e.code.None? && e.originalError == Some(thrown.plainError)
    ensures thrown.NotAnError? ==>
      e.kind == Base && e.name == "ArcadError" && e.message == UnknownErrorMessage
      && e.code.None? && e.originalError.None?
  {
    match thrown
    case Arcad(error) => error
    case Plain(error) => NewArcadError(error.message, None, Some(error))
    case NotAnError => NewArcadError(UnknownErrorMessage, None, None)
  }

  const TimeoutMessage: string :=
    "I apologize, but I'm having trouble accessing the latest product information. Please try your question again, or you can visit www.arcadsoftware.com directly."
  const ConnectionMessage: string :=
    "I encountered a connection issue. Could you please try your question again in a moment?"
  const SettingsMessage: string :=
    "I need a quick check of my settings. Could you please verify the Gemini API key in VS Code settings?"
  const BusyMessage: string :=
    "I'm processing quite a few requests at the moment. Could you give me a quick moment to catch up?"
  const HighDemandMessage: string :=
    "I'm experiencing high demand right now. Please try your question again in a few moments."
  const UnexpectedMessage: string :=
    "I encountered an unexpected issue. Let me try to resolve it and get back to you."

  /** The six sentences the user can be shown. */
  const FriendlyMessages: set<string> :=
    {TimeoutMessage, ConnectionMessage, SettingsMessage, BusyMessage, HighDemandMessage, UnexpectedMessage}

  /** The if-chain of `getUserFriendlyErrorMessage` once the value is an `ArcadError`. */
  function Classify(e: ArcadError): (m: string)
    ensures m in FriendlyMessages
  {
    if e.kind == Network then
      if e.code == Some("ECONNABORTED") then TimeoutMessage else ConnectionMessage
    else if e.kind == Configuration then SettingsMessage
    else if e.kind == AIModel && e.code == Some("429") then BusyMessage
    else if e.kind == AIModel && e.code == Some("503") then HighDemandMessage
    else UnexpectedMessage
  }

  /** `getUserFriendlyErrorMessage(error)`: total, and always one of the six sentences. */
  function UserFriendlyMessage(thrown: Thrown): (m: string)
    ensures m in FriendlyMessages
  {
    Classify(FromError(thrown))
  }

  // ---------------------------------------------------------------- lemmas

  /** `fromError` never changes an error it has already normalised. */
  lemma FromErrorIdempotent(thrown: Thrown)
    ensures FromError(Arcad(FromError(thrown))) == FromError(thrown)
  {
  }

  /** The six sentences have six different lengths, so no two of them are equal. */
  lemma FriendlyMessagesDistinct()
    ensures |TimeoutMessage| == 158 && |ConnectionMessage| == 87 && |SettingsMessage| == 100
    ensures |BusyMessage| == 96 && |HighDemandMessage| == 88 && |UnexpectedMessage| == 80
    ensures var sentences := [TimeoutMessage, ConnectionMessage, SettingsMessage,
                              BusyMessage, HighDemandMessage, UnexpectedMessage];
      forall a, b :: 0 <= a < b < |sentences| ==> sentences[a] != sentences[b]
  {
    var sentences := [TimeoutMessage, ConnectionMessage, SettingsMessage,
                      BusyMessage, HighDemandMessage, UnexpectedMessage];
    assert forall a :: 0 <= a < |sentences| ==> |sentences[a]| == [158, 87, 100, 96, 88, 80][a];
  }

  /** Each sentence is chosen exactly in its own case. */
  lemma ClassifyCases(e: ArcadError)
    ensures Classify(e) == TimeoutMessage <==> e.kind == Network && e.code == Some("ECONNABORTED")
    ensures Classify(e) == ConnectionMessage <==> e.kind == Network && e.code != Some("ECONNABORTED")
    ensures Classify(e) == SettingsMessage <==> e.kind == Configuration
    ensures Classify(e) == BusyMessage <==> e.kind == AIModel && e.code == Some("429")
    ensures Classify(e) == HighDemandMessage <==> e.kind == AIModel && e.code == Some("503")
    ensures Classify(e) == UnexpectedMessage <==>
      e.kind == Base || (e.kind == AIModel && e.code != Some("429") && e.code != Some("503"))
  {
    FriendlyMessagesDistinct();
  }

  /** Every configuration error, whatever its message, asks for a settings check. */
  lemma ConfigurationErrorsAskForSettings(message: string)
    ensures UserFriendlyMessage(Arcad(NewConfigurationError(message))) == SettingsMessage
  {
  }

  /** A network error reports a timeout exactly when its axios error had the code `ECONNABORTED`. */
  lemma NetworkErrorMessages(message: string, axiosError: Option<JsError>)
    ensures var m := UserFriendlyMessage(Arcad(NewNetworkError(message, axiosError)));
      m == TimeoutMessage <==> axiosError.Some? && axiosError.value.code == Some("ECONNABORTED")
    ensures var m := UserFriendlyMessage(Arcad(NewNetworkError(message, axiosError)));
      m == TimeoutMessage || m == ConnectionMessage
  {
    ClassifyCases(NewNetworkError(message, axiosError));
  }

  /** Plain errors and non-errors always get the generic sentence. */
  lemma OutsideTheHierarchyIsUnexpected(error: JsError)
    ensures UserFriendlyMessage(Plain(error)) == UnexpectedMessage
    ensures UserFriendlyMessage(NotAnError) == UnexpectedMessage
  {
  }

  /** An AI-model error with any code other than `'429'` or `'503'` gets the generic sentence. */
  lemma OtherModelCodesAreUnexpected(message: string, code: Option<string>)
    requires code != Some("429") && code != Some("503")
    ensures UserFriendlyMessage(Arcad(NewAIModelError(message, code))) == UnexpectedMessage
  {
  }
}
