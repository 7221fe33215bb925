/** The `DocumentForm` component of frontend-documental: the form that
    creates a document, or edits the one it is given. */
module DocumentForm {
  import opened Json
  import opened Store
  import opened Options
  import DocumentsApi
  import DocumentsRoutes
  import opened DocumentService

  /** The `formData` state: seven strings, since every input is controlled. */
  datatype FormData = FormData(
    nombre: string, tipo: string, proyecto: string, fecha: string,
    version: string, estado: string, creadoPor: string)

  /** The `name` attribute of the input that changed. */
  datatype FormField = Nombre | Tipo | Proyecto | Fecha | Version | Estado | CreadoPor

  const IncompleteMessage := "Por favor complete los campos obligatorios (*)"
  const UpdateFailedMessage := "Error al actualizar el documento"
  const CreateFailedMessage := "Error al crear el documento"

  /** The empty form, used at mount and after every successful save;
      `today` is the date the clock gives at that moment. */
  function InitialForm(today: string): FormData {
    FormData("", "", "sin asignacion", today, "v1.0", "Borrador", "")
  }

  /** The form filled from the document being edited: each falsy field of
      the document falls back to the initial form's value. */
  function Prefill(editDocument: Documento, today: string): (f: FormData)
    ensures Truthy(editDocument.nombre) ==> f.nombre == editDocument.nombre.s
    ensures Truthy(editDocument.tipo) ==> f.tipo == editDocument.tipo.s
    ensures Truthy(editDocument.proyecto) ==> f.proyecto == editDocument.proyecto.s
    ensures Truthy(editDocument.version) ==> f.version == editDocument.version.s
    ensures Truthy(editDocument.estado) ==> f.estado == editDocument.estado.s
    ensures Truthy(editDocument.creadoPor) ==> f.creadoPor == editDocument.creadoPor.s
    // a falsy field takes the value the empty form has
    ensures Truthy(editDocument.fecha) ==> f.fecha == editDocument.fecha.s
    ensures !Truthy(editDocument.nombre) ==> f.nombre == InitialForm(today).nombre
    ensures !Truthy(editDocument.tipo) ==> f.tipo == InitialForm(today).tipo
    ensures !Truthy(editDocument.fecha) ==> f.fecha == today
    ensures !Truthy(editDocument.proyecto) ==> f.proyecto == InitialForm(today).proyecto
    ensures !Truthy(editDocument.version) ==> f.version == InitialForm(today).version
    ensures !Truthy(editDocument.estado) ==> f.estado == InitialForm(today).estado
    ensures !Truthy(editDocument.creadoPor) ==> f.creadoPor == InitialForm(today).creadoPor
    // so the project, version and status of an edited document are never empty
    ensures f.proyecto != "" && f.version != "" && f.estado != ""
  {
    FormData(
      OrString(editDocument.nombre, ""), OrString(editDocument.tipo, ""),
      OrString(editDocument.proyecto, "sin asignacion"),
      OrString(editDocument.fecha, today), OrString(editDocument.version, "v1.0"),
      OrString(editDocument.estado, "Borrador"), OrString(editDocument.creadoPor, ""))
  }

  /** `{...prev, [name]: value}`. */
  function SetField(f: FormData, field: FormField, value: string): (g: FormData)
    ensures field == Nombre ==> g == f.(nombre := value)
    ensures field == Tipo ==> g == f.(tipo := value)
    ensures field == Proyecto ==> g == f.(proyecto := value)
    ensures field == Fecha ==> g == f.(fecha := value)
    ensures field == Version ==> g == f.(version := value)
    ensures field == Estado ==> g == f.(estado := value)
    ensures field == CreadoPor ==> g == f.(creadoPor := value)
  {
    match field
    case Nombre => f.(nombre := value)
    case Tipo => f.(tipo := value)
    case Proyecto => f.(proyecto := value)
    case Fecha => f.(fecha := value)
    case Version => f.(version := value)
    case Estado => f.(estado := value)
    case CreadoPor => f.(creadoPor := value)
  }

  /** The check of `handleSubmit`: name, type and creator must be non-empty. */
  predicate Complete(f: FormData) {
    f.nombre != "" && f.tipo != "" && f.creadoPor != ""
  }

  /** The empty form cannot be submitted. */
  lemma InitialFormIsIncomplete(today: string)
    ensures !Complete(InitialForm(today))
  {
  }

  /** The body the service builds from the form: `createDocument` and
      `updateDocument` read six of its properties and drop `fecha`. */
  function FormPayload(f: FormData): (b: DocumentsApi.DocumentBody)
    ensures b.name == Str(f.nombre) && b.project == Str(f.proyecto) && b.createdBy == Str(f.creadoPor)
    ensures b.docType == Str(f.tipo) && b.version == Str(f.version) && b.status == Str(f.estado)
    // a complete form with a project passes the API's validation
    ensures Complete(f) && f.proyecto != "" ==> DocumentsApi.CreateAccepted(b)
  {
    ApiData(Str(f.nombre), Str(f.tipo), Str(f.proyecto), Str(f.version), Str(f.estado), Str(f.creadoPor))
  }

  /** The date field never reaches the API. */
  lemma FormPayloadIgnoresFecha(f: FormData, fecha: string)
    ensures FormPayload(f.(fecha := fecha)) == FormPayload(f)
  {
  }

  /** The request a submit sends: an update of the edited document's id, or
      a create. */
  function SubmitCall(editDocument: Option<Documento>, f: FormData): Call {
    if editDocument.Some? then UpdateCall(editDocument.value.id, FormPayload(f))
    else CreateCall(FormPayload(f))
  }

  /** The message a failed save shows. */
  function SaveFailedMessage(editDocument: Option<Documento>): string {
    if editDocument.Some? then UpdateFailedMessage else CreateFailedMessage
  }

  /** A submit reaches the update handler when editing and the create
      handler otherwise. */
  lemma SubmitReachesHandler(editDocument: Option<Documento>, f: FormData)
    ensures editDocument.Some? ==> Reaches(SubmitCall(editDocument, f)) == Some(DocumentsRoutes.UpdateDocument)
    ensures editDocument.None? ==> Reaches(SubmitCall(editDocument, f)) == Some(DocumentsRoutes.CreateDocument)
  {
    if editDocument.Some? {
      OtherCallsReachTheirHandlers(editDocument.value.id, FormPayload(f));
    } else {
      CollectionCallsReachTheirHandlers(FormPayload(f));
    }
  }

  /** A document created from a form with a version and a Spanish status,
      listed back and opened for editing, fills the form with what was
      typed; only the date is today's. */
  lemma CreateThenEditRoundTrip(f: FormData, id: nat, today: string)
    requires Complete(f) && f.proyecto != "" && f.version != "" && f.estado != ""
    requires f.estado !in EnglishStatuses
    ensures var row := Row(id, DocumentsApi.Inserted(FormPayload(f)));
            Prefill(ToDocumento(FromRow(row), today), today) == f.(fecha := today)
  {
  }

  /** Opening a document stored without a version and saving it unchanged
      stores the form's default 'v1.0': the edit form is not a no-op. */
  lemma NullVersionBecomesDefault(row: Row<DocumentsApi.Document>, today: string)
    requires row.data.version == SqlNull
    ensures DocumentsApi.Merge(row.data, FormPayload(Prefill(ToDocumento(FromRow(row), today), today))).version == Txt("v1.0")
  {
  }

  /** The component: its form state, the saving flag and the error message. */
  class DocumentFormState {
    var formData: FormData
    var loading: bool
    var error: string

    constructor (today: string)
      ensures formData == InitialForm(today) && !loading && error == ""
    {
      formData := InitialForm(today);
      loading := false;
      error := "";
    }

    /** The effect run when `editDocument` changes: a given document fills
        the form, an absent one leaves it as it is. */
    method LoadEdit(editDocument: Option<Documento>, today: string)
      modifies this
      ensures editDocument.Some? ==> formData == Prefill(editDocument.value, today)
      ensures editDocument.None? ==> formData == old(formData)
      ensures loading == old(loading) && error == old(error)
    {
      if editDocument.Some? {
        formData := Prefill(editDocument.value, today);
      }
    }

    /** `handleChange`: one field takes the input's value and any error
        message is cleared. */
    method HandleChange(field: FormField, value: string)
      modifies this
      ensures formData == SetField(old(formData), field, value)
      ensures error == "" && loading == old(loading)
    {
      formData := SetField(formData, field, value);
      if error != "" {
        error := "";
      }
    }

    /** `handleSubmit`. `saved` is whether the service call resolves,
        `today` the date the clock gives for the reset, `hasCallback`
        whether `onDocumentCreated` was passed. Returns the request sent, if
        any, and whether the callback ran. */
    method HandleSubmit(editDocument: Option<Documento>, saved: bool, today: string, hasCallback: bool)
      returns (sent: Option<Call>, notified: bool)
      modifies this
      // an incomplete form sends nothing and keeps what was typed
      ensures !Complete(old(formData)) ==>
                sent == None && !notified && formData == old(formData) &&
                error == IncompleteMessage && loading == old(loading)
      // a complete form sends exactly one request and ends not loading
      ensures Complete(old(formData)) ==> sent == Some(SubmitCall(editDocument, old(formData))) && !loading
      ensures Complete(old(formData)) && saved ==>
                formData == InitialForm(today) && error == "" && notified == hasCallback
      ensures Complete(old(formData)) && !saved ==>
                formData == old(formData) && error == SaveFailedMessage(editDocument) && !notified
    {
      if formData.nombre == "" || formData.tipo == "" || formData.creadoPor == "" {
        error := IncompleteMessage;
        return None, false;
      }
      loading := true;
      error := "";
      sent := Some(SubmitCall(editDocument, formData));
      notified := false;
      if saved {
        formData := InitialForm(today);
        if hasCallback {
          notified := true;
        }
      } else {
        error := SaveFailedMessage(editDocument);
      }
      loading := false;
    }
  }
}
