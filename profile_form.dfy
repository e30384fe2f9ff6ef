/** The six-field profile form used by the onboarding wizard and by the
    profile editor: every field is the text of an input box. */
module ProfileForm {
  import opened Wrappers
  import opened JsString

  datatype ProfileField = FirstName | LastName | Age | Weight | Height | Focus

  datatype Form = Form(
    firstName: TextInput, lastName: TextInput, age: TextInput,
    weight: TextInput, height: TextInput, focus: TextInput)
  {
    /** `formData[field]` */
    function Get(f: ProfileField): TextInput {
      match f
      case FirstName => firstName
      case LastName => lastName
      case Age => age
      case Weight => weight
      case Height => height
      case Focus => focus
    }

    /** `{ ...formData, [field]: value }`: field `f` replaced, the other five kept. */
    function With(f: ProfileField, v: TextInput): (r: Form)
      ensures r.Get(f) == v
      ensures forall g :: g != f ==> r.Get(g) == Get(g)
    {
      match f
      case FirstName => this.(firstName := v)
      case LastName => this.(lastName := v)
      case Age => this.(age := v)
      case Weight => this.(weight := v)
      case Height => this.(height := v)
      case Focus => this.(focus := v)
    }
  }

  /** Every field starts as the empty string. */
  const EmptyForm: Form := Form(EmptyInput, EmptyInput, EmptyInput, EmptyInput, EmptyInput, EmptyInput)
}
