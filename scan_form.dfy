/** The scan form (frontend/src/App.jsx, ScanForm): collects code and guards blank input. */
module ScanForm {
  import opened Wrappers
  import opened JsText

  /** The form never asks for a name: every submission carries this one. */
  const DefaultContractName := "UploadedContract.sol"

  /** The inline message for a blank submission. */
  const EmptyCodeMessage := "\U{274C} Please provide contract code"

  /** The arguments of one `onSubmit(code, name)` call. */
  datatype Submission = Submission(code: string, name: string)

  /**
   * What submitting `code` emits: nothing for blank text, otherwise the text
   * unchanged with the fixed name.
   */
  function SubmissionFor(code: string): (r: Option<Submission>)
    ensures r.None? <==> IsBlank(code)
    ensures r.Some? ==> r.value == Submission(code, DefaultContractName)
  {
    if Trim(code) == [] then None else Some(Submission(code, DefaultContractName))
  }

  /** The form's two state cells: the text area and the inline error. */
  class ScanForm {
    var code: string
    var error: string

    constructor ()
      ensures code == "" && error == ""
    {
      code := "";
      error := "";
    }

    /** The inline error box, rendered only for a non-empty message. */
    function ErrorShown(): (shown: Option<string>)
      reads this
      ensures shown.Some? <==> error != ""
      ensures shown.Some? ==> shown.value == error
    {
      if error == "" then None else Some(error)
    }

    /** Typing in the text area replaces `code`. */
    method Edit(text: string)
      modifies this
      ensures code == text && error == old(error)
    {
      code := text;
    }

    /**
     * Submitting: blank text sets the inline error and emits nothing; any other
     * text clears the error and emits `(code, DefaultContractName)`.
     */
    method Submit() returns (emitted: Option<Submission>)
      modifies this
      ensures code == old(code)
      ensures emitted == SubmissionFor(code)
      ensures emitted.None? ==> error == EmptyCodeMessage && ErrorShown() == Some(EmptyCodeMessage)
      ensures emitted.Some? ==> error == "" && ErrorShown().None?
    {
      if Trim(code) == [] {
        error := EmptyCodeMessage;
        emitted := None;
        return;
      }
      error := "";
      emitted := Some(Submission(code, DefaultContractName));
    }
  }
}
