/** The new-note form, components/notes/Add.js: the checks before sending,
    the note sent, and what the answer does to the form. */
module NoteForm {
  import opened Wrappers
  import opened Text
  import opened Session
  import opened Pages

  /** The body of POST /api/notes; `id` names the user the note is for. */
  datatype NotePayload = NotePayload(title: string, text: string, tag: seq<string>, id: Option<string>)

  /** The note built from the form: trimmed title and text, the selected
      tags in order, and the target user's id only when an admin writes for
      another user. */
  function BuildPayload(auth: AuthInfo, target: Option<TargetUser>, title: string, text: string, selected: seq<string>)
    : (p: NotePayload)
    requires auth.info.roles.Some?
    ensures p.title == Trim(title) && p.text == Trim(text) && p.tag == selected
    ensures exists k :: Surrounds(title, p.title, k)
    ensures exists k :: Surrounds(text, p.text, k)
    ensures p.id.Some? <==> ViewsOther(auth, target) && IsAdmin(Some(auth))
    ensures p.id.Some? ==> p.id.value == target.value.userId.value
  {
    var note := NotePayload(Trim(title), Trim(text), selected, None);
    if ViewsOther(auth, target) && IsAdmin(Some(auth)) then note.(id := Some(target.value.userId.value)) else note
  }

  /** A title that passes the check is sent non-empty. */
  lemma SentTitleNotEmpty(auth: AuthInfo, target: Option<TargetUser>, title: string, text: string, selected: seq<string>)
    requires auth.info.roles.Some? && !IsBlank(title)
    ensures BuildPayload(auth, target, title, text, selected).title != ""
  {
    TrimEmptyIffBlank(title);
  }

  const CreateFailed := "Failed to create note"

  /** The form's own state; `navigatedTo` is where a successful save leads. */
  class AddNoteForm {
    var error: Option<string>
    var isSubmitting: bool
    var navigatedTo: Option<string>

    constructor ()
      ensures error.None? && !isSubmitting && navigatedTo.None?
    {
      error, isSubmitting, navigatedTo := None, false, None;
    }

    /** `handleSubmit`. Without a login, or with a blank title, nothing is
        sent. A role list that is missing makes building the note throw,
        which the form reports as a failed save. */
    method HandleSubmit(auth: Option<AuthInfo>, target: Option<TargetUser>, title: string, text: string,
                        selected: seq<string>, answer: Answer<()>)
      returns (sent: Option<NotePayload>)
      modifies this
      ensures auth.None? ==>
        sent.None? && error == Some("You must be logged in") && isSubmitting == old(isSubmitting) && navigatedTo == old(navigatedTo)
      ensures auth.Some? && IsBlank(title) ==>
        sent.None? && error == Some("Title is required") && isSubmitting == old(isSubmitting) && navigatedTo == old(navigatedTo)
      ensures auth.Some? && !IsBlank(title) ==> !isSubmitting
      ensures auth.Some? && !IsBlank(title) && auth.value.info.roles.None? ==>
        sent.None? && error == Some(CreateFailed) && navigatedTo == old(navigatedTo)
      ensures auth.Some? && !IsBlank(title) && auth.value.info.roles.Some? ==>
        sent == Some(BuildPayload(auth.value, target, title, text, selected))
      ensures sent.Some? && answer.Answered? ==> error.None? && navigatedTo == Some("/note")
      ensures sent.Some? && answer.Failed? ==> error == Some(OrElse(answer.error, CreateFailed)) && navigatedTo == old(navigatedTo)
    {
      if auth.None? {
        error := Some("You must be logged in");
        return None;
      }
      if IsBlank(title) {
        error := Some("Title is required");
        return None;
      }
      isSubmitting := true;
      if auth.value.info.roles.None? {
        error := Some(CreateFailed);
        sent := None;
      } else {
        sent := Some(BuildPayload(auth.value, target, title, text, selected));
        match answer {
          case Answered(_) =>
            error := None;
            navigatedTo := Some("/note");
          case Failed(message) =>
            error := Some(OrElse(message, CreateFailed));
        }
      }
      isSubmitting := false;
    }
  }
}
