/** The "sign document" form: the signing type, the PIN a token signature
    needs and an optional comment, with the screen's validation, field-edit,
    option-selection and submit handlers. */
module FirmarDocumento {
  import opened JsStrings
  import opened Forms

  const TipoFirmaRequired := "Debe seleccionar un tipo de firma"
  const PinRequired := "El PIN es requerido para firma con token"
  const Signed := "Documento firmado correctamente"

  /** The values the three signing options write into `tipo_firma`. */
  const Demo := "demo"
  const Token := "token"
  const Hsm := "hsm"

  /** The keys of `formData` (`tipo_firma`, `pin`, `comentario`). */
  datatype Field = TipoFirma | Pin | Comentario

  datatype Form = Form(tipoFirma: string, pin: string, comentario: string)
  {
    function Get(field: Field): string {
      match field
      case TipoFirma => tipoFirma
      case Pin => pin
      case Comentario => comentario
    }

    /** `{ ...prev, [field]: value }`: only the named field changes. */
    function Set(field: Field, value: string): (r: Form)
      ensures r.Get(field) == value
      ensures forall g :: g != field ==> r.Get(g) == Get(g)
    {
      match field
      case TipoFirma => this.(tipoFirma := value)
      case Pin => this.(pin := value)
      case Comentario => this.(comentario := value)
    }
  }

  /** The form the screen opens with: a demo signature, no PIN, no comment. */
  const InitialForm := Form(Demo, "", "")

  /** The three option cards, in the order they are shown. */
  datatype SigningOption = DemoOption | TokenOption | HsmOption

  /** The `tipo_firma` value an option card writes when pressed. */
  function OptionValue(o: SigningOption): (v: string)
    ensures o == DemoOption ==> v == Demo
    ensures o == TokenOption ==> v == Token
    ensures o == HsmOption ==> v == Hsm
    ensures v in {Demo, Token, Hsm}
    ensures v != ""
  {
    match o
    case DemoOption => Demo
    case TokenOption => Token
    case HsmOption => Hsm
  }

  /** An option card is highlighted when `tipo_firma` equals its value. */
  predicate IsSelected(form: Form, o: SigningOption) {
    form.tipoFirma == OptionValue(o)
  }

  /** The PIN input is rendered only for token signatures. */
  predicate PinVisible(form: Form) {
    form.tipoFirma == Token
  }

  /** The error map `validateForm` must produce: a missing signing type, and a
      blank PIN when signing with a token. */
  function FormErrors(form: Form): (e: map<Field, string>)
    ensures TipoFirma in e <==> form.tipoFirma == ""
    ensures Pin in e <==> form.tipoFirma == Token && IsBlank(form.pin)
    ensures Comentario !in e
    ensures forall f :: f in e ==> ErrorShown(e, f)
  {
    var e := if form.tipoFirma == "" then map[TipoFirma := TipoFirmaRequired] else map[];
    if form.tipoFirma == Token && IsBlank(form.pin) then e[Pin := PinRequired] else e
  }

  /** The screen opens on a valid form. */
  lemma InitialFormValid()
    ensures FormErrors(InitialForm) == map[]
    ensures IsSelected(InitialForm, DemoOption) && !PinVisible(InitialForm)
  {
  }

  /** Demo and HSM signatures never ask for a PIN: after choosing either, the
      form is valid whatever the PIN and comment hold. */
  lemma OnlyTokenNeedsPin(form: Form, o: SigningOption)
    requires o != TokenOption
    ensures FormErrors(form.Set(TipoFirma, OptionValue(o))) == map[]
  {
  }

  /** A PIN error is only ever reported while the PIN input is visible. */
  lemma PinErrorOnlyWhenVisible(form: Form)
    ensures Pin in FormErrors(form) ==> PinVisible(form)
  {
  }

  /** Pressing an option highlights exactly that option. */
  lemma ExactlyOneSelected(form: Form, o: SigningOption, p: SigningOption)
    ensures IsSelected(form.Set(TipoFirma, OptionValue(o)), p) <==> p == o
  {
  }

  /** Switching the signing type keeps the PIN typed so far, so returning to
      a token signature shows it again. */
  lemma SwitchingKeepsPin(form: Form, o: SigningOption)
    ensures form.Set(TipoFirma, OptionValue(o)).pin == form.pin
    ensures PinVisible(form.Set(TipoFirma, OptionValue(o))) <==> o == TokenOption
  {
  }

  /** The comment is never validated. */
  lemma CommentNeverValidated(form: Form, v: string)
    ensures FormErrors(form.Set(Comentario, v)) == FormErrors(form)
  {
  }

  class FirmarDocumentoScreen {
    var formData: Form
    var errors: map<Field, string>
    var loading: bool

    constructor ()
      ensures formData == InitialForm && errors == map[] && !loading
    {
      formData := InitialForm;
      errors := map[];
      loading := false;
    }

    /** `validateForm`: rebuilds the whole error map and reports whether it
        came out empty. */
    method ValidateForm() returns (ok: bool)
      modifies this`errors
      ensures errors == FormErrors(formData)
      ensures ok <==> errors == map[]
    {
      var newErrors: map<Field, string> := map[];
      if formData.tipoFirma == "" {
        newErrors := newErrors[TipoFirma := TipoFirmaRequired];
      }
      if formData.tipoFirma == Token && IsBlank(formData.pin) {
        newErrors := newErrors[Pin := PinRequired];
      }
      errors := newErrors;
      ok := |newErrors.Keys| == 0;
      assert ok <==> newErrors == map[] by {
        if newErrors != map[] {
          var f :| f in newErrors;
        }
      }
    }

    /** `handleSubmit`: stops when validation fails, leaving `loading` as it
        was; otherwise raises the success notice and `loading` ends false. */
    method HandleSubmit() returns (outcome: SubmitOutcome)
      modifies this`errors, this`loading
      ensures errors == FormErrors(formData)
      ensures outcome == if errors == map[] then Succeeded(Signed) else ValidationFailed
      ensures outcome == ValidationFailed ==> loading == old(loading)
      ensures outcome.Succeeded? ==> !loading
    {
      var ok := ValidateForm();
      if !ok {
        return ValidationFailed;
      }
      loading := true;
      outcome := Succeeded(Signed);
      loading := false;
    }

    /** `handleInputChange`: sets the one field and clears that field's error
        if one was shown. */
    method HandleInputChange(field: Field, value: string)
      modifies this`formData, this`errors
      ensures formData == old(formData).Set(field, value)
      ensures errors == ClearError(old(errors), field)
    {
      formData := formData.Set(field, value);
      if ErrorShown(errors, field) {
        errors := errors[field := ""];
      }
    }

    /** Pressing an option card: `handleInputChange('tipo_firma', value)`. */
    method SelectOption(o: SigningOption)
      modifies this`formData, this`errors
      ensures formData == old(formData).Set(TipoFirma, OptionValue(o))
      ensures errors == ClearError(old(errors), TipoFirma)
    {
      HandleInputChange(TipoFirma, OptionValue(o));
    }
  }

  /** Choosing a token signature and submitting without a PIN fails with the
      PIN error; typing a PIN and submitting again succeeds. */
  method TokenScenario(pin: string) returns (first: SubmitOutcome, second: SubmitOutcome)
    requires !IsBlank(pin)
    ensures first == ValidationFailed
    ensures second == Succeeded(Signed)
  {
    var screen := new FirmarDocumentoScreen();
    screen.SelectOption(TokenOption);
    first := screen.HandleSubmit();
    assert IsBlank(screen.formData.pin);
    assert Pin in screen.errors;
    screen.HandleInputChange(Pin, pin);
    second := screen.HandleSubmit();
  }
}
