/**
 * The profile settings form: its fields start from the user, with the
 * faculty placeholder shown as an empty field; each change touches one
 * field; the form counts as changed when it differs from those starting
 * values; Reset restores them; Save and Reset are disabled while submitting
 * or while nothing changed.
 */
module ProfileForm {
  import opened Js
  import opened Types

  datatype ProfileFormData = ProfileFormData(name: string, email: string, fakultas: string)

  datatype ProfileField = Name | Email | Fakultas

  /** The faculty as the form shows it: the placeholder becomes an empty field. */
  function ShownFakultas(fakultas: string): (r: string)
    ensures fakultas == NotSpecified ==> r == ""
    ensures fakultas != NotSpecified ==> r == fakultas
  {
    if fakultas == NotSpecified then "" else fakultas
  }

  /** The starting (and reset) values of the form for a user. */
  function InitialForm(user: User): (f: ProfileFormData)
    ensures f.name == user.name && f.email == user.email && f.fakultas == ShownFakultas(user.fakultas)
  {
    ProfileFormData(user.name, user.email, ShownFakultas(user.fakultas))
  }

  /** `isFormChanged`: some field differs from the user's normalised values. */
  function FormChanged(form: ProfileFormData, user: User): (changed: bool)
    ensures changed <==> form != InitialForm(user)
  {
    form.name != user.name || form.email != user.email || form.fakultas != ShownFakultas(user.fakultas)
  }

  /** `{ ...prev, [field]: value }`: the named field takes the value, the other two are kept. */
  function WithField(form: ProfileFormData, field: ProfileField, value: string): (f: ProfileFormData)
    ensures field == Name ==> f.name == value && f.email == form.email && f.fakultas == form.fakultas
    ensures field == Email ==> f.email == value && f.name == form.name && f.fakultas == form.fakultas
    ensures field == Fakultas ==> f.fakultas == value && f.name == form.name && f.email == form.email
  {
    match field
    case Name => form.(name := value)
    case Email => form.(email := value)
    case Fakultas => form.(fakultas := value)
  }

  /**
   * The form component. `user` is the prop: a new user does not reset the
   * form (the form state is only initialised once), but `isFormChanged`
   * compares against the current prop.
   */
  class ProfileFormState {
    var user: User
    var formData: ProfileFormData

    constructor (user: User)
      ensures this.user == user && formData == InitialForm(user)
      ensures !IsFormChanged()
    {
      this.user := user;
      formData := InitialForm(user);
    }

    function IsFormChanged(): bool
      reads this
    {
      FormChanged(formData, user)
    }

    /** `disabled={isSubmitting || !isFormChanged}`, shared by Save and Reset. */
    function ButtonsDisabled(isSubmitting: bool): (disabled: bool)
      reads this
      ensures disabled <==> isSubmitting || formData == InitialForm(user)
    {
      isSubmitting || !IsFormChanged()
    }

    /** A re-render with a new `user` prop: the form keeps what it holds. */
    method ReceiveUser(user: User)
      modifies this
      ensures this.user == user && formData == old(formData)
    {
      this.user := user;
    }

    /** `handleChange(field, value)`. */
    method HandleChange(field: ProfileField, value: string)
      modifies this
      ensures formData == WithField(old(formData), field, value) && user == old(user)
    {
      formData := WithField(formData, field, value);
    }

    /** The Reset button: back to the normalised user values, after which nothing counts as changed. */
    method Reset()
      modifies this
      ensures formData == InitialForm(user) && user == old(user)
      ensures !IsFormChanged()
    {
      formData := InitialForm(user);
    }

    /** `handleSubmit`: the current form data goes to `onSubmit` as it is, every field sent. */
    method Submit() returns (request: ProfileUpdate)
      ensures request.name == Some(formData.name)
      ensures request.email == Some(formData.email)
      ensures request.fakultas == Some(formData.fakultas)
    {
      request := ProfileUpdate(Some(formData.name), Some(formData.email), Some(formData.fakultas));
    }
  }
}
