/**
 * The edit-post dialog: its form holds title, content and category, is
 * reloaded from the post whenever the post changes, changes one field at a
 * time, counts as changed when any field differs from the post, and submits
 * the post's id with the form.
 */
module EditPostDialog {
  import opened Types

  /** The form (an `UpdatePostRequest`). */
  datatype UpdatePostData = UpdatePostData(title: string, content: string, kategori: string)

  datatype EditField = Title | Content | Kategori

  /** The form state before the post is first loaded into it. */
  const EmptyForm: UpdatePostData := UpdatePostData("", "", "")

  /** The form values taken from a post. */
  function FromPost(post: Post): (f: UpdatePostData)
    ensures f.title == post.title && f.content == post.content && f.kategori == post.kategori
  {
    UpdatePostData(post.title, post.content, post.kategori)
  }

  /** `isFormChanged`: title, content or category differs from the post's. */
  function FormChanged(form: UpdatePostData, post: Post): (changed: bool)
    ensures changed <==> form != FromPost(post)
  {
    form.title != post.title || form.content != post.content || form.kategori != post.kategori
  }

  /** `{ ...prev, [field]: value }`. */
  function WithField(form: UpdatePostData, field: EditField, value: string): (f: UpdatePostData)
    ensures field == Title ==> f.title == value && f.content == form.content && f.kategori == form.kategori
    ensures field == Content ==> f.content == value && f.title == form.title && f.kategori == form.kategori
    ensures field == Kategori ==> f.kategori == value && f.title == form.title && f.content == form.content
  {
    match field
    case Title => form.(title := value)
    case Content => form.(content := value)
    case Kategori => form.(kategori := value)
  }

  /** The dialog component with its `post` prop and its form state. */
  class EditPostDialogState {
    var post: Post
    var formData: UpdatePostData

    /** Mounting: the form starts empty; the effect below then loads the post. */
    constructor (post: Post)
      ensures this.post == post && formData == EmptyForm
    {
      this.post := post;
      formData := EmptyForm;
    }

    function IsFormChanged(): bool
      reads this
    {
      FormChanged(formData, post)
    }

    /** `disabled={isUpdating || !isFormChanged}` on the submit button. */
    function SubmitDisabled(isUpdating: bool): (disabled: bool)
      reads this
      ensures disabled <==> isUpdating || formData == FromPost(post)
    {
      isUpdating || !IsFormChanged()
    }

    /** The effect on `[post]`, run after mounting and whenever the post changes: the form is reloaded from the post. */
    method PostChanged(post: Post)
      modifies this
      ensures this.post == post && formData == FromPost(post)
      ensures !IsFormChanged()
    {
      this.post := post;
      formData := FromPost(post);
    }

    /** `handleChange(field, value)`. */
    method HandleChange(field: EditField, value: string)
      modifies this
      ensures formData == WithField(old(formData), field, value) && post == old(post)
    {
      formData := WithField(formData, field, value);
    }

    /** `handleSubmit`: `onUpdate(post.id, formData)`. */
    method Submit() returns (postId: string, request: UpdatePostData)
      ensures postId == post.id && request == formData
    {
      postId, request := post.id, formData;
    }
  }
}
