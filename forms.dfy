/** The package's forms as values: the ordered field table each form class
    builds in its constructor (sitegate/signup_flows/classic.py,
    sitegate/signup_flows/modern.py, sitegate/signin_flows/modern.py), and the
    outcome of a field's `clean_*` validator.  Django's own form machinery
    (rendering, field validation) is not modelled; a form is its fields, the
    data it is bound to and the attributes the flows attach to it. */
module Forms {
  import opened Common

  datatype Widget = TextInput | PasswordInput | EmailInput | HiddenInput

  /** A form field with its label (`caption`), whether it is required, its
      widget, its initial value and the HTML attributes of its widget. */
  datatype Field = Field(caption: string, required: bool, widget: Widget, initial: string, attrs: ODict<string>)

  function RequiredField(caption: string, widget: Widget): Field
  {
    Field(caption, true, widget, "", [])
  }

  /** The form classes the flows use. */
  datatype FormClass =
    | ClassicSignupForm
    | SimpleClassicSignupForm
    | ClassicWithEmailSignupForm
    | SimpleClassicWithEmailSignupForm
    | ModernSignupForm
    | InvitationSignupForm
    | ClassicSigninForm
    | ModernSigninForm

  /** `OrderedDict.insert(0, k, v)` of the ordered field table: `k` moves (or
      is added) to the front with value `v`. */
  function PutFirst<V>(d: ODict<V>, k: string, v: V): (r: ODict<V>)
    ensures Keys(r) == [k] + Keys(Remove(d, k))
    ensures DistinctKeys(d) ==> DistinctKeys(r)
  {
    var rest := Remove(d, k);
    var r := [(k, v)] + rest;
    assert k !in Keys(rest);
    assert forall j :: 0 < j < |r| ==> r[j].0 == Keys(rest)[j - 1] && r[j] == rest[j - 1];
    r
  }

  /** Django's `UserCreationForm` for a user model whose `USERNAME_FIELD` is
      `username`: the model field first, then the two declared password fields. */
  function ClassicFields(): ODict<Field>
  {
    [("username", RequiredField("Username", TextInput)),
     ("password1", RequiredField("Password", PasswordInput)),
     ("password2", RequiredField("Password confirmation", PasswordInput))]
  }

  /** `ClassicWithEmailSignupForm`: its `Meta.fields` order, with the declared
      `email` field. */
  function WithEmailFields(): ODict<Field>
  {
    [("username", RequiredField("Username", TextInput)),
     ("email", RequiredField("Email", EmailInput)),
     ("password1", RequiredField("Password", PasswordInput)),
     ("password2", RequiredField("Password confirmation", PasswordInput))]
  }

  /** Django's `AuthenticationForm`. */
  function SigninFields(): ODict<Field>
  {
    [("username", RequiredField("Username", TextInput)),
     ("password", RequiredField("Password", PasswordInput))]
  }

  /** The fields a form class's constructor leaves, each built from its
      parent's as the constructors do: `del self.fields[...]`,
      `self.fields.insert(0, 'code', ...)` and the relabelled username. */
  function FormFields(c: FormClass): ODict<Field>
  {
    match c
    case ClassicSignupForm => ClassicFields()
    case SimpleClassicSignupForm => Remove(ClassicFields(), "password2")
    case ClassicWithEmailSignupForm => WithEmailFields()
    case SimpleClassicWithEmailSignupForm => Remove(WithEmailFields(), "password2")
    case ModernSignupForm => Remove(Remove(WithEmailFields(), "password2"), "username")
    case InvitationSignupForm =>
      PutFirst(Remove(Remove(WithEmailFields(), "password2"), "username"), "code",
               RequiredField("Invitation code", TextInput))
    case ClassicSigninForm => SigninFields()
    case ModernSigninForm => Put(SigninFields(), "username", RequiredField("Username / Email", TextInput))
  }

  /** The classic forms: the Simple form drops `password2`. */
  lemma ClassicFieldNames()
    ensures Keys(FormFields(ClassicSignupForm)) == ["username", "password1", "password2"]
    ensures Keys(FormFields(SimpleClassicSignupForm)) == ["username", "password1"]
  {
    assert Remove(ClassicFields(), "password2") == [ClassicFields()[0], ClassicFields()[1]];
  }

  /** The e-mail forms add `email` after the username. */
  lemma WithEmailFieldNames()
    ensures Keys(FormFields(ClassicWithEmailSignupForm)) == ["username", "email", "password1", "password2"]
    ensures Keys(FormFields(SimpleClassicWithEmailSignupForm)) == ["username", "email", "password1"]
  {
    assert Remove(WithEmailFields(), "password2") == [WithEmailFields()[0], WithEmailFields()[1], WithEmailFields()[2]];
  }

  /** The modern form has no `username`, and the invitation form puts `code` first. */
  lemma ModernFieldNames()
    ensures Keys(FormFields(ModernSignupForm)) == ["email", "password1"]
    ensures Keys(FormFields(InvitationSignupForm)) == ["code", "email", "password1"]
  {
    var simple := Remove(WithEmailFields(), "password2");
    assert simple == [WithEmailFields()[0], WithEmailFields()[1], WithEmailFields()[2]];
    assert Remove(simple, "username") == [simple[1], simple[2]];
  }

  /** The sign in forms keep the two fields of `AuthenticationForm`. */
  lemma SigninFieldNames()
    ensures Keys(FormFields(ClassicSigninForm)) == ["username", "password"]
    ensures Keys(FormFields(ModernSigninForm)) == ["username", "password"]
  {
    PutKeysExisting(SigninFields(), "username", RequiredField("Username / Email", TextInput));
  }

  /** The modern sign-in form relabels its username field and keeps it required. */
  lemma ModernSigninLabel()
    ensures Get(FormFields(ModernSigninForm), "username") == Some(RequiredField("Username / Email", TextInput))
  {
    PutGet(SigninFields(), "username", RequiredField("Username / Email", TextInput));
  }

  /** A form: its class, its fields, the data it is bound to (`None` for an
      unbound form), its template, and the flow's `enabled` and
      `disabled_text` attached to it. */
  datatype Form = Form(cls: FormClass, fields: ODict<Field>, data: Option<ODict<string>>,
                       template: string, enabled: Option<bool>, disabledText: Option<string>)

  /** `form_class(data)`. */
  function NewForm(c: FormClass, data: Option<ODict<string>>): (f: Form)
  {
    Form(c, FormFields(c), data, "", None, None)
  }

  /** What a `clean_<field>` validator does: return the cleaned value, raise
      `ValidationError` with a message, or let another exception escape. */
  datatype Cleaned<T> = Accepted(value: T) | Rejected(message: string) | Raised
}
