/** The comment form under a post (client/src/components/CommentForm.js):
    three required fields, posted to POST /api/posts/:id/comments, reset
    once the server has accepted the comment. */
module CommentFormComponent {
  import opened Wrappers
  import opened Text
  import BlogStore

  datatype CommentFormData = CommentFormData(name: string, email: string, content: string)

  datatype FormField = Name | Email | Content

  const EmptyForm := CommentFormData("", "", "")
  const MissingFieldsMessage := "Please fill in all fields"
  const PostFailedMessage := "Failed to post comment. Please try again."

  function Get(form: CommentFormData, f: FormField): string {
    match f
    case Name => form.name
    case Email => form.email
    case Content => form.content
  }

  /** handleChange: `{ ...formData, [name]: value }`. */
  function WithField(form: CommentFormData, f: FormField, value: string): (r: CommentFormData)
    ensures Get(r, f) == value
    ensures forall g :: g != f ==> Get(r, g) == Get(form, g)
  {
    match f
    case Name => form.(name := value)
    case Email => form.(email := value)
    case Content => form.(content := value)
  }

  /** The guard of handleSubmit: some field is blank after trimming. */
  predicate MissingField(form: CommentFormData) {
    IsBlank(form.name) || IsBlank(form.email) || IsBlank(form.content)
  }

  /** The request body as the server's handler receives it. */
  function AsCommentInput(form: CommentFormData): BlogStore.CommentInput {
    BlogStore.CommentInput(Some(form.name), Some(form.email), Some(form.content))
  }

  /** The form's check is stricter than the server's: whatever it lets
      through the server accepts, but a whitespace-only field that the
      server would store is stopped here. */
  lemma FormCheckImpliesServerCheck(form: CommentFormData)
    ensures !MissingField(form) ==> BlogStore.ValidCommentInput(AsCommentInput(form))
    ensures MissingField(CommentFormData(" ", "a", "b"))
    ensures BlogStore.ValidCommentInput(AsCommentInput(CommentFormData(" ", "a", "b")))
  {
    assert Trim("") == "";
    assert IsSpace(" "[0]);
  }

  /** The component's state; `postId` and `onCommentSubmit` are its props. */
  class CommentFormState {
    var formData: CommentFormData
    var loading: bool
    var error: string

    constructor ()
      ensures formData == EmptyForm && !loading && error == ""
    {
      formData, loading, error := EmptyForm, false, "";
    }

    method HandleChange(f: FormField, value: string)
      modifies this`formData
      ensures formData == WithField(old(formData), f, value)
    {
      formData := WithField(formData, f, value);
    }

    /** handleSubmit up to the request: a blank field sets the error and
        sends nothing; otherwise loading is set, the error cleared and the
        form data sent as it is. */
    method Submit() returns (sent: Option<CommentFormData>)
      modifies this`loading, this`error
      ensures MissingField(formData) ==>
        sent == None && error == MissingFieldsMessage && loading == old(loading)
      ensures !MissingField(formData) ==> sent == Some(formData) && loading && error == ""
    {
      var form := formData;
      if MissingField(form) {
        error := MissingFieldsMessage;
        sent := None;
      } else {
        loading := true;
        error := "";
        sent := Some(form);
      }
    }

    /** handleSubmit after the request: the created comment resets the
        form and is handed to `onCommentSubmit`; a failure keeps the form
        and shows an error; loading ends either way. */
    method Settle(response: Option<BlogStore.Comment>) returns (notified: Option<BlogStore.Comment>)
      modifies this
      ensures !loading && notified == response
      ensures response.Some? ==> formData == EmptyForm && error == old(error)
      ensures response.None? ==> formData == old(formData) && error == PostFailedMessage
    {
      if response.Some? {
        formData := EmptyForm;
        notified := response;
      } else {
        error := PostFailedMessage;
        notified := None;
      }
      loading := false;
    }
  }
}
