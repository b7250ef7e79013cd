/**
 * The required-field contract of the `/configure` endpoint: seven form fields,
 * each required, the numeric ones coerced to their declared types.  A request
 * that fails is answered with HTTP 422 and the list of failing fields, and
 * no price is computed.
 */
module Validation {
  import opened Wrappers
  import opened Part

  /** The submitted form: field name to raw text. */
  type Form = map<string, string>

  datatype FieldError = MissingField(name: string) | InvalidType(name: string)

  /** The framework's conversion of form text to a float and to an int.  It is
      not part of this model and is passed in. */
  datatype Coercion = Coercion(toReal: string -> Option<real>, toInt: string -> Option<int>)

  /** The required fields, in parameter order. */
  const RequiredFields: seq<string> :=
    ["material", "surface_treatment", "length", "width", "thickness", "hole_diameter", "quantity"]

  /** The fields coerced to float. */
  const RealFields: set<string> := {"length", "width", "thickness", "hole_diameter"}

  /** A form field counts as given only when it is there and not empty. */
  predicate Present(form: Form, name: string) {
    name in form && form[name] != ""
  }

  function TextFieldErrors(form: Form, name: string): seq<FieldError> {
    if Present(form, name) then [] else [MissingField(name)]
  }

  function RealFieldErrors(form: Form, co: Coercion, name: string): seq<FieldError> {
    if !Present(form, name) then [MissingField(name)]
    else if co.toReal(form[name]).None? then [InvalidType(name)]
    else []
  }

  function IntFieldErrors(form: Form, co: Coercion, name: string): seq<FieldError> {
    if !Present(form, name) then [MissingField(name)]
    else if co.toInt(form[name]).None? then [InvalidType(name)]
    else []
  }

  /** Every failing field, in parameter order. */
  function FieldErrors(form: Form, co: Coercion): seq<FieldError> {
    TextFieldErrors(form, "material") + TextFieldErrors(form, "surface_treatment")
    + RealFieldErrors(form, co, "length") + RealFieldErrors(form, co, "width")
    + RealFieldErrors(form, co, "thickness") + RealFieldErrors(form, co, "hole_diameter")
    + IntFieldErrors(form, co, "quantity")
  }

  /** The form's value for a float field that is known to coerce. */
  function RealField(form: Form, co: Coercion, name: string): real
    requires Present(form, name) && co.toReal(form[name]).Some?
  {
    co.toReal(form[name]).value
  }

  /** The typed configuration, or every field error; on success the fields are
      taken over as given, without normalisation. */
  function Validate(form: Form, co: Coercion): (r: Result<PartConfiguration, seq<FieldError>>)
    ensures r.Err? ==> r.error != [] && r.error == FieldErrors(form, co)
    ensures r.Ok? ==> forall name :: name in RequiredFields ==> Present(form, name)
    ensures r.Ok? ==>
      && (forall name :: name in RequiredFields ==> name in form)
      && r.value.material == form["material"]
      && r.value.surfaceTreatment == form["surface_treatment"]
      && Some(r.value.dimensions.length) == co.toReal(form["length"])
      && Some(r.value.dimensions.width) == co.toReal(form["width"])
      && Some(r.value.dimensions.thickness) == co.toReal(form["thickness"])
      && Some(r.value.dimensions.holeDiameter) == co.toReal(form["hole_diameter"])
      && Some(r.value.quantity) == co.toInt(form["quantity"])
  {
    var errors := FieldErrors(form, co);
    if errors != [] then Err(errors)
    else
      Ok(PartConfiguration(
        form["material"],
        form["surface_treatment"],
        Dimensions(RealField(form, co, "length"), RealField(form, co, "width"),
                   RealField(form, co, "thickness"), RealField(form, co, "hole_diameter")),
        co.toInt(form["quantity"]).value))
  }

  /** A required field that is absent or empty is reported as missing, and the
      form is rejected. */
  lemma MissingFieldRejected(form: Form, co: Coercion, name: string)
    requires name in RequiredFields && !Present(form, name)
    ensures Validate(form, co).Err?
    ensures MissingField(name) in Validate(form, co).error
  {
  }

  /** The errors name exactly the failing fields: a field is reported missing
      if and only if it is required and not given, and reported as of the wrong
      type if and only if it is a numeric field whose text does not coerce. */
  lemma FieldErrorsExact(form: Form, co: Coercion, name: string)
    ensures MissingField(name) in FieldErrors(form, co) <==>
      name in RequiredFields && !Present(form, name)
    ensures InvalidType(name) in FieldErrors(form, co) <==>
      && Present(form, name)
      && ((name in RealFields && co.toReal(form[name]).None?)
          || (name == "quantity" && co.toInt(form[name]).None?))
  {
  }

  /** A form with all seven fields given and the numeric ones coercible is
      accepted. */
  lemma CompleteFormAccepted(form: Form, co: Coercion)
    requires forall name :: name in RequiredFields ==> Present(form, name)
    requires forall name :: name in RealFields ==> name in form && co.toReal(form[name]).Some?
    requires "quantity" in form && co.toInt(form["quantity"]).Some?
    ensures Validate(form, co).Ok?
  {
  }
}
