/**
 * The create-post dialog: its default form, field changes (the anonymity
 * switch coerced to a boolean), the attached image and its preview, submit
 * (send, reset, close), closing without submitting (reset) and the
 * case-sensitive category colours.
 */
module CreatePostForm {
  import opened Js
  import opened Types

  /** One `handleChange(field, value)` call; the anonymity value may be any JavaScript value. */
  datatype FieldChange =
    | SetTitle(title: string)
    | SetContent(content: string)
    | SetFakultas(fakultas: string)
    | SetKategori(kategori: string)
    | SetAnonymous(value: JsValue)
    | SetImage(image: Option<FileRef>)

  /**
   * The default form: empty title and content, the signed-in user's faculty
   * or "" (`user?.fakultas || ""`), category TUGAS, not anonymous, no image.
   */
  function DefaultForm(user: Option<User>): (f: PostDraft)
    ensures f.title == "" && f.content == "" && f.kategori == "TUGAS" && !f.isAnonymous && f.image.None?
    ensures user.Some? && user.value.fakultas != "" ==> f.fakultas == user.value.fakultas
    ensures user.None? || user.value.fakultas == "" ==> f.fakultas == ""
  {
    PostDraft("", "", OrString(if user.Some? then Some(user.value.fakultas) else None, ""), "TUGAS", false, None)
  }

  /** `{ ...prev, [field]: field === "isAnonymous" ? Boolean(value) : value }`: only the named field changes. */
  function ApplyChange(form: PostDraft, change: FieldChange): (f: PostDraft)
    ensures change.SetAnonymous? ==> f == form.(isAnonymous := Truthy(change.value))
    ensures change.SetTitle? ==> f == form.(title := change.title)
    ensures change.SetContent? ==> f == form.(content := change.content)
    ensures change.SetFakultas? ==> f == form.(fakultas := change.fakultas)
    ensures change.SetKategori? ==> f == form.(kategori := change.kategori)
    ensures change.SetImage? ==> f == form.(image := change.image)
  {
    match change
    case SetTitle(t) => PostDraft(t, form.content, form.fakultas, form.kategori, form.isAnonymous, form.image)
    case SetContent(c) => PostDraft(form.title, c, form.fakultas, form.kategori, form.isAnonymous, form.image)
    case SetFakultas(x) => PostDraft(form.title, form.content, x, form.kategori, form.isAnonymous, form.image)
    case SetKategori(k) => PostDraft(form.title, form.content, form.fakultas, k, form.isAnonymous, form.image)
    case SetAnonymous(v) => PostDraft(form.title, form.content, form.fakultas, form.kategori, Truthy(v), form.image)
    case SetImage(i) => PostDraft(form.title, form.content, form.fakultas, form.kategori, form.isAnonymous, i)
  }

  /** The switch only ever stores a boolean: an empty string or 0 turn anonymity off, a non-empty string turns it on. */
  lemma AnonymousCoercion(form: PostDraft)
    ensures !ApplyChange(form, SetAnonymous(JsString(""))).isAnonymous
    ensures !ApplyChange(form, SetAnonymous(JsNumber(0))).isAnonymous
    ensures ApplyChange(form, SetAnonymous(JsString("false"))).isAnonymous
    ensures ApplyChange(form, SetAnonymous(JsBool(true))).isAnonymous
  {
  }

  const GrayCategory: string := "bg-gray-100 text-gray-800 border-gray-200"

  /** `getCategoryColor` of this dialog: five exact, case-sensitive categories, gray otherwise. */
  function CategoryColor(category: string): (r: string)
    ensures r == GrayCategory <==> category !in {"TUGAS", "DISKUSI", "PENGUMUMAN", "CURHAT", "MEME"}
    ensures category == "TUGAS" ==> r == "bg-blue-100 text-blue-800 border-blue-200"
    ensures category == "DISKUSI" ==> r == "bg-green-100 text-green-800 border-green-200"
    ensures category == "PENGUMUMAN" ==> r == "bg-orange-100 text-orange-800 border-orange-200"
    ensures category == "CURHAT" ==> r == "bg-purple-100 text-purple-800 border-purple-200"
    ensures category == "MEME" ==> r == "bg-pink-100 text-pink-800 border-pink-200"
  {
    match category
    case "TUGAS" => "bg-blue-100 text-blue-800 border-blue-200"
    case "DISKUSI" => "bg-green-100 text-green-800 border-green-200"
    case "PENGUMUMAN" => "bg-orange-100 text-orange-800 border-orange-200"
    case "CURHAT" => "bg-purple-100 text-purple-800 border-purple-200"
    case "MEME" => "bg-pink-100 text-pink-800 border-pink-200"
    case _ => GrayCategory
  }

  /** The dialog component: whether it is open, its form and the image preview. */
  class CreatePostFormState {
    const user: Option<User>
    var showFullForm: bool
    var formData: PostDraft
    var imagePreview: Option<string>

    constructor (user: Option<User>)
      ensures this.user == user
      ensures !showFullForm && formData == DefaultForm(user) && imagePreview.None?
    {
      this.user := user;
      showFullForm := false;
      formData := DefaultForm(user);
      imagePreview := None;
    }

    /** `handleChange`. */
    method HandleChange(change: FieldChange)
      modifies this
      ensures formData == ApplyChange(old(formData), change)
      ensures showFullForm == old(showFullForm) && imagePreview == old(imagePreview)
    {
      formData := ApplyChange(formData, change);
    }

    /** `handleFileChange`: a chosen file is stored in the form and previewed; no file changes nothing. */
    method HandleFileChange(file: Option<FileRef>, previewUrl: string)
      modifies this
      ensures file.Some? ==> formData == old(formData).(image := file) && imagePreview == Some(previewUrl)
      ensures file.None? ==> formData == old(formData) && imagePreview == old(imagePreview)
      ensures showFullForm == old(showFullForm)
    {
      if file.Some? {
        HandleChange(SetImage(file));
        imagePreview := Some(previewUrl);
      }
    }

    /** `removeImage`: both the preview and the form's image are cleared. */
    method RemoveImage()
      modifies this
      ensures imagePreview.None? && formData == old(formData).(image := None)
      ensures showFullForm == old(showFullForm)
    {
      imagePreview := None;
      HandleChange(SetImage(None));
    }

    /** `resetForm`: the default form and no preview. */
    method ResetForm()
      modifies this
      ensures formData == DefaultForm(user) && imagePreview.None?
      ensures showFullForm == old(showFullForm)
    {
      formData := DefaultForm(user);
      imagePreview := None;
    }

    /** `handleSubmit`: the form goes out with a boolean `isAnonymous`, then the form is reset and the dialog closed. */
    method HandleSubmit() returns (request: PostDraft)
      modifies this
      ensures request == old(formData)
      ensures formData == DefaultForm(user) && imagePreview.None? && !showFullForm
    {
      request := formData.(isAnonymous := Truthy(JsBool(formData.isAnonymous)));
      ResetForm();
      showFullForm := false;
    }

    /** `onOpenChange(open)`: opening keeps the form as it is; closing resets it. */
    method OnOpenChange(open: bool)
      modifies this
      ensures showFullForm == open
      ensures open ==> formData == old(formData) && imagePreview == old(imagePreview)
      ensures !open ==> formData == DefaultForm(user) && imagePreview.None?
    {
      showFullForm := open;
      if !open {
        ResetForm();
      }
    }
  }
}
