/** The "upload document" form: `formData`, the chosen file, `errors` and
    `loading`, with the screen's validation, field-edit, file-pick and submit
    handlers. */
module SubirDocumento {
  import opened Ui
  import opened JsStrings
  import opened Forms

  const NombreRequired := "El nombre del documento es requerido"
  const FileRequired := "Debe seleccionar un archivo"
  const ExpedienteRequired := "Debe seleccionar un expediente"
  const Uploaded := "Documento subido correctamente"
  const SelectFileTitle := "Seleccionar Archivo"
  const SelectFileMessage := "Funcionalidad de selecci\U{00F3}n de archivo"

  /** The keys of `formData` (`nombre`, `descripcion`, `tipo`, `expediente_id`). */
  datatype Field = Nombre | Descripcion | Tipo | ExpedienteId

  /** The keys of `errors`: one per form field, plus `file` for the missing
      attachment, which no input edits. */
  datatype ErrorKey = FieldKey(field: Field) | File

  /** A picked file, as the screen would display it. */
  datatype SelectedFile = SelectedFile(name: string, size: nat)

  datatype Form = Form(nombre: string, descripcion: string, tipo: string, expedienteId: string)
  {
    function Get(field: Field): string {
      match field
      case Nombre => nombre
      case Descripcion => descripcion
      case Tipo => tipo
      case ExpedienteId => expedienteId
    }

    /** `{ ...prev, [field]: value }`: only the named field changes. */
    function Set(field: Field, value: string): (r: Form)
      ensures r.Get(field) == value
      ensures forall g :: g != field ==> r.Get(g) == Get(g)
    {
      match field
      case Nombre => this.(nombre := value)
      case Descripcion => this.(descripcion := value)
      case Tipo => this.(tipo := value)
      case ExpedienteId => this.(expedienteId := value)
    }
  }

  /** The form the screen opens with: every field empty except the case file,
      which is taken from the route (`expedienteId || ''`). */
  function InitialForm(expedienteId: Option<string>): (f: Form)
    ensures f.nombre == "" && f.descripcion == "" && f.tipo == ""
    ensures expedienteId.Some? ==> f.expedienteId == expedienteId.value
    ensures expedienteId.None? ==> f.expedienteId == ""
  {
    Form("", "", "", if expedienteId.Some? then expedienteId.value else "")
  }

  /** The rule for one error key: the message it contributes, if any. */
  function KeyError(form: Form, file: Option<SelectedFile>, key: ErrorKey): Option<string> {
    match key
    case FieldKey(Nombre) => if IsBlank(form.nombre) then Some(NombreRequired) else None
    case File => if file.None? then Some(FileRequired) else None
    case FieldKey(ExpedienteId) => if IsBlank(form.expedienteId) then Some(ExpedienteRequired) else None
    case FieldKey(_) => None
  }

  /** The error map `validateForm` must produce for this form and file. */
  function FormErrors(form: Form, file: Option<SelectedFile>): (e: map<ErrorKey, string>)
    ensures FieldKey(Nombre) in e <==> IsBlank(form.nombre)
    ensures File in e <==> file.None?
    ensures FieldKey(ExpedienteId) in e <==> IsBlank(form.expedienteId)
    ensures FieldKey(Descripcion) !in e && FieldKey(Tipo) !in e
    ensures forall k :: k in e ==> ErrorShown(e, k)
  {
    var keys := {FieldKey(Nombre), FieldKey(Descripcion), FieldKey(Tipo), FieldKey(ExpedienteId), File};
    map k | k in keys && KeyError(form, file, k).Some? :: KeyError(form, file, k).value
  }

  /** Without a picked file the form is never valid, whatever its fields hold. */
  lemma NoFileNeverValid(form: Form)
    ensures FormErrors(form, None) != map[]
    ensures FormErrors(form, None)[File] == FileRequired
  {
  }

  /** Opened without a case file, the form reports the missing case file;
      opened with a non-blank one, it does not. */
  lemma InitialCaseFileRule(expedienteId: Option<string>)
    ensures var e := FormErrors(InitialForm(expedienteId), None);
            && (expedienteId.None? ==> e.Keys == {FieldKey(Nombre), File, FieldKey(ExpedienteId)})
            && (expedienteId.Some? && !IsBlank(expedienteId.value) ==> e.Keys == {FieldKey(Nombre), File})
  {
    assert IsBlank("");
  }

  /** Editing a field never clears the file error: no input is bound to `file`. */
  lemma FileErrorSurvivesEdits(errors: map<ErrorKey, string>, field: Field)
    ensures ErrorShown(ClearError(errors, FieldKey(field)), File) == ErrorShown(errors, File)
  {
  }

  class SubirDocumentoScreen {
    var formData: Form
    /** `selectedFile`; `null` is `None`. */
    var selectedFile: Option<SelectedFile>
    var errors: map<ErrorKey, string>
    var loading: bool

    /** The screen as mounted with the route's `expedienteId`, if any. */
    constructor (expedienteId: Option<string>)
      ensures formData == InitialForm(expedienteId)
      ensures selectedFile == None && errors == map[] && !loading
    {
      formData := InitialForm(expedienteId);
      selectedFile := None;
      errors := map[];
      loading := false;
    }

    /** `validateForm`: rebuilds the whole error map and reports whether it
        came out empty. */
    method ValidateForm() returns (ok: bool)
      modifies this`errors
      ensures errors == FormErrors(formData, selectedFile)
      ensures ok <==> errors == map[]
    {
      var newErrors: map<ErrorKey, string> := map[];
      if IsBlank(formData.nombre) {
        newErrors := newErrors[FieldKey(Nombre) := NombreRequired];
      }
      if selectedFile.None? {
        newErrors := newErrors[File := FileRequired];
      }
      if IsBlank(formData.expedienteId) {
        newErrors := newErrors[FieldKey(ExpedienteId) := ExpedienteRequired];
      }
      errors := newErrors;
      ok := |newErrors.Keys| == 0;
      assert ok <==> newErrors == map[] by {
        if newErrors != map[] {
          var k :| k in newErrors;
        }
      }
    }

    /** `handleSelectFile`: only announces that picking a file is not
        available; `selectedFile` is left as it was. */
    method HandleSelectFile() returns (effect: Effect)
      ensures effect == Notice(SelectFileTitle, SelectFileMessage)
      ensures !IsDenial(effect)
    {
      effect := Notice(SelectFileTitle, SelectFileMessage);
    }

    /** `handleSubmit`: stops when validation fails, leaving `loading` as it
        was; otherwise raises the success notice and `loading` ends false.
        Since nothing sets `selectedFile`, the success path is never taken. */
    method HandleSubmit() returns (outcome: SubmitOutcome)
      modifies this`errors, this`loading
      ensures errors == FormErrors(formData, selectedFile)
      ensures outcome == if errors == map[] then Succeeded(Uploaded) else ValidationFailed
      ensures selectedFile.None? ==> outcome == ValidationFailed
      ensures outcome == ValidationFailed ==> loading == old(loading)
      ensures outcome.Succeeded? ==> !loading
    {
      var ok := ValidateForm();
      if !ok {
        return ValidationFailed;
      }
      loading := true;
      outcome := Succeeded(Uploaded);
      loading := false;
    }

    /** `handleInputChange`: sets the one field and clears that field's error
        if one was shown. */
    method HandleInputChange(field: Field, value: string)
      modifies this`formData, this`errors
      ensures formData == old(formData).Set(field, value)
      ensures errors == ClearError(old(errors), FieldKey(field))
    {
      formData := formData.Set(field, value);
      if ErrorShown(errors, FieldKey(field)) {
        errors := errors[FieldKey(field) := ""];
      }
    }
  }

  /** Whatever the user types, a freshly opened screen cannot upload: every
      submit fails validation and reports the missing file. */
  method UploadScenario(expedienteId: Option<string>, field: Field, value: string)
    returns (outcome: SubmitOutcome)
    ensures outcome == ValidationFailed
  {
    var screen := new SubirDocumentoScreen(expedienteId);
    var notice := screen.HandleSelectFile();
    screen.HandleInputChange(field, value);
    outcome := screen.HandleSubmit();
    assert File in screen.errors;
  }
}
