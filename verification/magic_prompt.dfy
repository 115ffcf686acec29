/** The story form (`MagicPrompt`): the idea, the child's name, the style,
    and the validation run when the form is submitted. */
module MagicPrompt {
  import opened Common
  import Constants

  const PromptMissingMessage: string := "Please enter a story idea"
  const NameMissingMessage: string := "Please enter the child's name"

  datatype Form = Form(prompt: string, childName: string, visualStyle: string, error: string)

  /** A fresh form: empty fields, the default style, no error. */
  const Fresh: Form := Form("", "", Constants.DefaultStyle, "")

  /** What `onSubmit` receives. */
  datatype Submission = Submission(prompt: string, childName: string, visualStyle: string)

  /** The form after a submit, and what was handed on, if anything. */
  datatype Submitted = Submitted(form: Form, handedOn: Option<Submission>)

  /** `handleSubmit`. The idea is checked before the name; a blank field
      (white space only) is reported and nothing is handed on; otherwise the
      error is cleared and the trimmed idea and name go on with the chosen
      style. The fields themselves are never changed. */
  function Submit(f: Form): (r: Submitted)
    ensures r.form == f.(error := r.form.error)
    ensures IsBlank(f.prompt) ==> r == Submitted(f.(error := PromptMissingMessage), None)
    ensures !IsBlank(f.prompt) && IsBlank(f.childName) ==> r == Submitted(f.(error := NameMissingMessage), None)
    ensures r.handedOn.Some? <==> !IsBlank(f.prompt) && !IsBlank(f.childName)
    ensures r.handedOn.Some? ==> (&& r.form.error == ""
                                  && r.handedOn.value == Submission(Trim(f.prompt), Trim(f.childName), f.visualStyle))
    ensures r.handedOn.Some? ==> r.handedOn.value.prompt != "" && r.handedOn.value.childName != ""
  {
    TrimEmptyIffBlank(f.prompt);
    TrimEmptyIffBlank(f.childName);
    var cleared := f.(error := "");
    if Trim(f.prompt) == "" then Submitted(cleared.(error := PromptMissingMessage), None)
    else if Trim(f.childName) == "" then Submitted(cleared.(error := NameMissingMessage), None)
    else Submitted(cleared, Some(Submission(Trim(f.prompt), Trim(f.childName), f.visualStyle)))
  }

  /** Submitting the same form twice hands on the same thing: what is handed
      on is already trimmed, so trimming it again changes nothing. */
  lemma HandedOnIsTrimmed(f: Form)
    requires Submit(f).handedOn.Some?
    ensures var s := Submit(f).handedOn.value;
      Trim(s.prompt) == s.prompt && Trim(s.childName) == s.childName
  {
    TrimIdempotent(f.prompt);
    TrimIdempotent(f.childName);
  }

  /** With both fields blank, only the idea is complained about. */
  lemma IdeaCheckedFirst(f: Form)
    requires IsBlank(f.prompt) && IsBlank(f.childName)
    ensures Submit(f).form.error == PromptMissingMessage
  {
  }
}
