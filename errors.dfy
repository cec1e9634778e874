/** The sentinel validation errors of the package (errors.go). */
module Errors {

  /** Go's `type E string`: an error whose message is the string itself. */
  datatype E = E(text: string) {

    /** `E.Error()`: the message is the underlying string, unchanged. */
    function Error(): (msg: string)
      ensures msg == text
    {
      text
    }
  }

  /**
   * The five error types, each a distinct Go struct type embedding `E`.
   * Being distinct constructors, the outcomes of validation can be told apart.
   */
  datatype ValidationError =
    | NameRequiredError(e: E)
    | ExtRequiredError(e: E)
    | OutputTypeError(e: E)
    | LanguageError(e: E)
    | DataError(e: E)
  {
    /** The promoted `Error()` method of the embedded `E`. */
    function Error(): (msg: string)
      ensures msg == e.text
    {
      e.Error()
    }
  }

  const ErrNameRequired: ValidationError := NameRequiredError(E("name is required"))
  const ErrExtRequired: ValidationError := ExtRequiredError(E("extension is required"))
  const ErrOutputType: ValidationError := OutputTypeError(E("output type is not supported"))
  const ErrLanguage: ValidationError := LanguageError(E("language is required"))
  const ErrData: ValidationError := DataError(E("data is required"))

  /** The sentinels carry their fixed messages. */
  lemma SentinelMessages()
    ensures ErrNameRequired.Error() == "name is required"
    ensures ErrExtRequired.Error() == "extension is required"
    ensures ErrOutputType.Error() == "output type is not supported"
    ensures ErrLanguage.Error() == "language is required"
    ensures ErrData.Error() == "data is required"
  {
  }

  /** The five sentinels have five different types and five different messages. */
  lemma SentinelsDistinct()
    ensures ErrNameRequired.NameRequiredError? && ErrExtRequired.ExtRequiredError?
    ensures ErrOutputType.OutputTypeError? && ErrLanguage.LanguageError? && ErrData.DataError?
    ensures var msgs := [ErrNameRequired.Error(), ErrExtRequired.Error(), ErrOutputType.Error(),
                         ErrLanguage.Error(), ErrData.Error()];
            forall i, j :: 0 <= i < j < |msgs| ==> msgs[i] != msgs[j]
  {
  }
}
