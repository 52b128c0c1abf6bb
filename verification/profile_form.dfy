/** The onboarding form: four text inputs edited one at a time, and a submit that hands
    the whole draft to the caller and keeps it. */
module ProfileForm {
  import opened Records

  /** The `name` attributes of the inputs. */
  datatype ProfileField = Name | Age | Allergies | Conditions

  /** The text of one input. */
  function Get(d: ProfileDraft, f: ProfileField): string {
    match f
    case Name => d.name
    case Age => d.age
    case Allergies => d.allergies
    case Conditions => d.conditions
  }

  /** `{ ...prev, [e.target.name]: e.target.value }`: the draft with one input replaced;
      the age stays text. */
  function With(d: ProfileDraft, f: ProfileField, v: string): (e: ProfileDraft)
    ensures Get(e, f) == v
    ensures forall g :: g != f ==> Get(e, g) == Get(d, g)
  {
    match f
    case Name => d.(name := v)
    case Age => d.(age := v)
    case Allergies => d.(allergies := v)
    case Conditions => d.(conditions := v)
  }

  /** Editing the same input twice keeps only the last value. */
  lemma {:induction false} LastEditWins(d: ProfileDraft, f: ProfileField, v1: string, v2: string)
    ensures With(With(d, f, v1), f, v2) == With(d, f, v2)
  {
    match f
    case Name =>
    case Age =>
    case Allergies =>
    case Conditions =>
  }

  /** Edits of different inputs commute. */
  lemma {:induction false} EditsCommute(d: ProfileDraft, f: ProfileField, g: ProfileField, v: string, w: string)
    requires f != g
    ensures With(With(d, f, v), g, w) == With(With(d, g, w), f, v)
  {
    var a, b := With(With(d, f, v), g, w), With(With(d, g, w), f, v);
    assert forall h :: Get(a, h) == Get(b, h);
    assert Get(a, Name) == Get(b, Name) && Get(a, Age) == Get(b, Age);
    assert Get(a, Allergies) == Get(b, Allergies) && Get(a, Conditions) == Get(b, Conditions);
  }

  class FormState {
    var formData: ProfileDraft

    constructor ()
      ensures formData == ProfileDraft("", "", "", "")
    {
      formData := ProfileDraft("", "", "", "");
    }

    /** `handleChange` for the input named `f`. */
    method HandleChange(f: ProfileField, v: string)
      modifies this`formData
      ensures formData == With(old(formData), f, v)
    {
      formData := With(formData, f, v);
    }

    /** The form's submit: the browser fires `handleSubmit` only when the two `required`
        inputs, name and age, are non-empty; it then hands the draft to `onComplete`
        untouched, and the form keeps it, so it can be submitted again. */
    method HandleSubmit() returns (submitted: Option<ProfileDraft>)
      ensures submitted.None? <==> formData.name == "" || formData.age == ""
      ensures submitted.Some? ==> submitted.value == formData
    {
      if formData.name == "" || formData.age == "" {
        submitted := None;
      } else {
        submitted := Some(formData);
      }
    }
  }
}
