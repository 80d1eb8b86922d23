/** The "create case" form: its four fields, the required-field check on
    the trimmed title and description, and the submission that carries the
    creator's name. The parent's `onCaseCreated` outcome is an input. */
module CreateCaseModal {
  import opened Wrappers
  import opened Text
  import opened Notify
  import AuthStore

  datatype FormData = FormData(title: string, description: string, status: string, priority: string)

  /** The form as it opens and as it is reset after a successful submission. */
  const InitialForm := FormData("", "", "OPEN", "MEDIUM")

  /** The fields `handleInputChange` is called with. */
  datatype Field = Title | Description | Status | Priority

  function Get(f: FormData, field: Field): string {
    match field
    case Title => f.title
    case Description => f.description
    case Status => f.status
    case Priority => f.priority
  }

  /** `{ ...prev, [field]: value }`. */
  function With(f: FormData, field: Field, value: string): (r: FormData)
    ensures Get(r, field) == value
    ensures forall other :: other != field ==> Get(r, other) == Get(f, other)
  {
    match field
    case Title => f.(title := value)
    case Description => f.(description := value)
    case Status => f.(status := value)
    case Priority => f.(priority := value)
  }

  /** The values the status selector submits. The "In Progress" option
      carries a space, unlike the declared `IN_PROGRESS`. */
  const StatusOptions := ["OPEN", "IN PROGRESS", "RESOLVED", "CLOSED"]
  const DeclaredStatuses := ["OPEN", "IN_PROGRESS", "RESOLVED", "CLOSED"]

  /** What `onCaseCreated` receives: the form's values untrimmed, plus the
      creator under both `created_by` and `user_id`. */
  datatype Submission = Submission(
    title: string, description: string, status: string, priority: string,
    createdBy: string, userId: string)

  /** Both required fields hold something besides white space. */
  predicate IsComplete(f: FormData) {
    Trim(f.title) != "" && Trim(f.description) != ""
  }

  lemma CompleteIffNotBlank(f: FormData)
    ensures IsComplete(f) <==> !IsBlank(f.title) && !IsBlank(f.description)
  {
    TrimEmptyIffBlank(f.title);
    TrimEmptyIffBlank(f.description);
  }

  /** `user?.displayName || "Demo User"`. */
  function Creator(user: Option<AuthStore.User>): (r: string)
    ensures r != ""
    ensures user.Some? && user.value.displayName.Some? && user.value.displayName.value != "" ==>
      r == user.value.displayName.value
    ensures r != "Demo User" ==> user.Some? && user.value.displayName == Some(r)
  {
    OrElse(if user.Some? then user.value.displayName else None, "Demo User")
  }

  const MissingFieldsText := "Please fill in all required fields"
  const CreatedText := "Case created successfully!"
  const CreateFailedText := "Failed to create case"

  class CaseForm {
    var form: FormData
    var isSubmitting: bool

    constructor ()
      ensures form == InitialForm && !isSubmitting
    {
      form := InitialForm;
      isSubmitting := false;
    }

    /** `handleInputChange`: only the named field changes. */
    method HandleInputChange(field: Field, value: string)
      modifies this
      ensures Get(form, field) == value
      ensures forall other :: other != field ==> Get(form, other) == Get(old(form), other)
      ensures isSubmitting == old(isSubmitting)
    {
      form := With(form, field, value);
    }

    /** `handleSubmit`. `accepted` is whether the parent's `onCaseCreated`
        resolved; the layout's handler always resolves, even when the
        creation failed, so there it is always true. Returns what was
        handed to the parent and whether the modal asked to close. */
    method HandleSubmit(user: Option<AuthStore.User>, accepted: bool)
      returns (submitted: Option<Submission>, toasts: seq<Toast>, closed: bool)
      modifies this
      ensures submitted.Some? <==> old(IsComplete(form))
      ensures !old(IsComplete(form)) ==>
        form == old(form) && isSubmitting == old(isSubmitting) && !closed
        && toasts == [ErrorToast(MissingFieldsText)]
      ensures submitted.Some? ==>
        && submitted.value == Submission(old(form.title), old(form.description), old(form.status),
                                         old(form.priority), Creator(user), Creator(user))
        && !isSubmitting
        && closed == accepted
        && form == (if accepted then InitialForm else old(form))
        && toasts == [if accepted then SuccessToast(CreatedText) else ErrorToast(CreateFailedText)]
    {
      if !IsComplete(form) {
        return None, [ErrorToast(MissingFieldsText)], false;
      }
      isSubmitting := true;
      var creator := Creator(user);
      submitted := Some(Submission(form.title, form.description, form.status, form.priority, creator, creator));
      if accepted {
        toasts := [SuccessToast(CreatedText)];
        form := InitialForm;
        closed := true;
      } else {
        toasts := [ErrorToast(CreateFailedText)];
        closed := false;
      }
      isSubmitting := false;
    }
  }

  /** Validation looks at the trimmed fields but the submission keeps the
      white space: a title that starts with white space is never what its
      trimmed form is, yet it is sent as typed. */
  lemma PaddingSurvivesValidation(t: string)
    requires t != [] && IsWhitespace(t[0])
    ensures |Trim(t)| < |t|
  {
    assert |TrimStart(t)| < |t|;
  }

  /** A form reset after success validates as incomplete, so a second submit
      without typing is refused. */
  lemma ResetFormIsIncomplete()
    ensures !IsComplete(InitialForm)
  {
  }

  /** The "In Progress" option submits a value outside the declared ones. */
  lemma InProgressOptionUndeclared()
    ensures StatusOptions[1] == "IN PROGRESS" && StatusOptions[1] !in DeclaredStatuses
    ensures forall i :: 0 <= i < |StatusOptions| && i != 1 ==> StatusOptions[i] in DeclaredStatuses
  {
  }

  /** A new form filled in with "In Progress" chosen: the submission carries
      the undeclared status, and the title and description exactly as typed,
      white space included. */
  method InProgressSubmission(title: string, description: string, user: Option<AuthStore.User>)
    returns (submitted: Option<Submission>)
    requires !IsBlank(title) && !IsBlank(description)
    ensures submitted.Some? && submitted.value.status == "IN PROGRESS" && submitted.value.status !in DeclaredStatuses
    ensures submitted.value.title == title && submitted.value.description == description
  {
    var f := new CaseForm();
    f.HandleInputChange(Title, title);
    f.HandleInputChange(Description, description);
    f.HandleInputChange(Status, StatusOptions[1]);
    CompleteIffNotBlank(f.form);
    var toasts, closed;
    submitted, toasts, closed := f.HandleSubmit(user, true);
    InProgressOptionUndeclared();
  }
}
