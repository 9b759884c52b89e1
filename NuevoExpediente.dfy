/** The "new case file" form: `formData`, `errors` and `loading`, with the
    screen's validation, field-edit and submit handlers. */
module NuevoExpediente {
  import opened Ui
  import opened JsStrings
  import opened Forms

  const NroRequired := "El n\U{00FA}mero de expediente es requerido"
  const CaratulaRequired := "La car\U{00E1}tula es requerida"
  const CaratulaTooShort := "La car\U{00E1}tula debe tener al menos 10 caracteres"
  const FueroRequired := "El fuero es requerido"
  const Created := "Expediente creado correctamente"

  /** Least `length` a caption must have. */
  const MinCaratulaLength := 10

  /** The keys of `formData` (`nro`, `caratula`, `fuero`, `institucion_id`). */
  datatype Field = Nro | Caratula | Fuero | InstitucionId

  /** `formData`: one string per field. */
  datatype Form = Form(nro: string, caratula: string, fuero: string, institucionId: string)
  {
    function Get(field: Field): string {
      match field
      case Nro => nro
      case Caratula => caratula
      case Fuero => fuero
      case InstitucionId => institucionId
    }

    /** `{ ...prev, [field]: value }`: only the named field changes. */
    function Set(field: Field, value: string): (r: Form)
      ensures r.Get(field) == value
      ensures forall g :: g != field ==> r.Get(g) == Get(g)
    {
      match field
      case Nro => this.(nro := value)
      case Caratula => this.(caratula := value)
      case Fuero => this.(fuero := value)
      case InstitucionId => this.(institucionId := value)
    }
  }

  const InitialForm := Form("", "", "", "")

  /** The rule for one field: the message it contributes to the error map,
      if any. A caption is first checked for blankness; only a non-blank one
      is checked for length, on the untrimmed value. */
  function FieldError(form: Form, field: Field): Option<string> {
    match field
    case Nro => if IsBlank(form.nro) then Some(NroRequired) else None
    case Caratula =>
      if IsBlank(form.caratula) then Some(CaratulaRequired)
      else if JsLength(form.caratula) < MinCaratulaLength then Some(CaratulaTooShort)
      else None
    case Fuero => if IsBlank(form.fuero) then Some(FueroRequired) else None
    case InstitucionId => None
  }

  /** The error map `validateForm` must produce: one entry per failing rule. */
  function FormErrors(form: Form): (e: map<Field, string>)
    ensures Nro in e <==> IsBlank(form.nro)
    ensures Caratula in e <==> IsBlank(form.caratula) || JsLength(form.caratula) < MinCaratulaLength
    ensures Caratula in e ==> e[Caratula] == if IsBlank(form.caratula) then CaratulaRequired else CaratulaTooShort
    ensures Fuero in e <==> IsBlank(form.fuero)
    ensures InstitucionId !in e
    ensures forall f :: f in e ==> ErrorShown(e, f)
  {
    map f | f in {Nro, Caratula, Fuero, InstitucionId} && FieldError(form, f).Some? :: FieldError(form, f).value
  }

  /** `institucion_id` has no rule: editing it never changes the errors. */
  lemma InstitucionNeverValidated(form: Form, v: string)
    ensures FormErrors(form.Set(InstitucionId, v)) == FormErrors(form)
  {
    var form' := form.Set(InstitucionId, v);
    assert forall f :: FieldError(form', f) == FieldError(form, f);
  }

  /** The empty form fails on the number, the caption and the jurisdiction. */
  lemma InitialFormErrors()
    ensures FormErrors(InitialForm)
            == map[Nro := NroRequired, Caratula := CaratulaRequired, Fuero := FueroRequired]
  {
    assert IsBlank("");
  }

  /** The length rule counts untrimmed characters: a non-blank caption `s`
      behind blank padding `p` trims to the same text as `s`, yet passes as
      soon as padding and caption together reach ten code units, however
      short `s` is. */
  lemma PaddedCaptionPasses(form: Form, p: string, s: string)
    requires IsBlank(p) && !IsBlank(s)
    requires JsLength(p) + JsLength(s) >= MinCaratulaLength
    ensures Trim(p + s) == Trim(s)
    ensures Caratula !in FormErrors(form.Set(Caratula, p + s))
  {
    TrimStartSkipsBlank(p, s);
    BlankConcat(p, s);
    JsLengthConcat(p, s);
  }

  class NuevoExpedienteScreen {
    var formData: Form
    var errors: map<Field, string>
    var loading: bool

    constructor ()
      ensures formData == InitialForm && errors == map[] && !loading
    {
      formData := InitialForm;
      errors := map[];
      loading := false;
    }

    /** `validateForm`: rebuilds the whole error map rule by rule and reports
        whether it came out empty. */
    method ValidateForm() returns (ok: bool)
      modifies this`errors
      ensures errors == FormErrors(formData)
      ensures ok <==> errors == map[]
    {
      var newErrors: map<Field, string> := map[];
      if IsBlank(formData.nro) {
        newErrors := newErrors[Nro := NroRequired];
      }
      if IsBlank(formData.caratula) {
        newErrors := newErrors[Caratula := CaratulaRequired];
      } else if JsLength(formData.caratula) < MinCaratulaLength {
        newErrors := newErrors[Caratula := CaratulaTooShort];
      }
      if IsBlank(formData.fuero) {
        newErrors := newErrors[Fuero := FueroRequired];
      }
      errors := newErrors;
      ok := |newErrors.Keys| == 0;
      assert ok <==> newErrors == map[] by {
        if newErrors != map[] {
          var f :| f in newErrors;
        }
      }
    }

    /** `handleSubmit`: stops when validation fails, leaving `loading` as it
        was; otherwise raises the success notice, and `loading` ends false. */
    method HandleSubmit() returns (outcome: SubmitOutcome)
      modifies this`errors, this`loading
      ensures errors == FormErrors(formData)
      ensures outcome == if errors == map[] then Succeeded(Created) else ValidationFailed
      ensures outcome == ValidationFailed ==> loading == old(loading)
      ensures outcome.Succeeded? ==> !loading
    {
      var ok := ValidateForm();
      if !ok {
        return ValidationFailed;
      }
      loading := true;
      outcome := Succeeded(Created);
      loading := false;
    }

    /** `handleInputChange`: sets the one field and clears that field's
        error if one was shown. */
    method HandleInputChange(field: Field, value: string)
      modifies this`formData, this`errors
      ensures formData == old(formData).Set(field, value)
      ensures errors == ClearError(old(errors), field)
    {
      formData := formData.Set(field, value);
      if ErrorShown(errors, field) {
        errors := errors[field := ""];
      }
    }
  }
}
