/** The `ResourceForm` component of frontend-recursos: the form that
    registers a new staff member. */
module ResourcesForm {
  import opened Json
  import opened Options
  import opened Fetch
  import RecursosApi

  /** The `form` state, with the camelCase names of the inputs. */
  datatype ResourceForm = ResourceForm(
    nombreCompleto: string, rol: string, especializacion: string, email: string,
    telefono: string, estado: string, proyectoAsignado: string)

  /** The `name` attribute of the input that changed. */
  datatype ResourceField = NombreCompleto | Rol | Especializacion | Email | Telefono | Estado | ProyectoAsignado

  const PersonalUrl := "http://localhost:4000/api/personal"
  const IncompleteMessage := "Por favor completa los campos obligatorios"

  /** The form at mount and after a successful registration. */
  function InitialResourceForm(): ResourceForm {
    ResourceForm("", "", "", "", "", "", "Sin asignación")
  }

  /** `{ ...form, [name]: value }`. */
  function SetField(f: ResourceForm, field: ResourceField, value: string): (g: ResourceForm)
    ensures field == NombreCompleto ==> g == f.(nombreCompleto := value)
    ensures field == Rol ==> g == f.(rol := value)
    ensures field == Especializacion ==> g == f.(especializacion := value)
    ensures field == Email ==> g == f.(email := value)
    ensures field == Telefono ==> g == f.(telefono := value)
    ensures field == Estado ==> g == f.(estado := value)
    ensures field == ProyectoAsignado ==> g == f.(proyectoAsignado := value)
  {
    match field
    case NombreCompleto => f.(nombreCompleto := value)
    case Rol => f.(rol := value)
    case Especializacion => f.(especializacion := value)
    case Email => f.(email := value)
    case Telefono => f.(telefono := value)
    case Estado => f.(estado := value)
    case ProyectoAsignado => f.(proyectoAsignado := value)
  }

  /** The check of `handleSubmit`: name, role and email must be non-empty. */
  predicate Complete(f: ResourceForm) {
    f.nombreCompleto != "" && f.rol != "" && f.email != ""
  }

  /** The initial form cannot be submitted, and it is already assigned to
      no project. */
  lemma InitialFormIsIncomplete()
    ensures !Complete(InitialResourceForm())
    ensures InitialResourceForm().proyectoAsignado != ""
  {
  }

  /** `JSON.stringify(form)`: the seven properties under their camelCase names. */
  function FormBody(f: ResourceForm): (o: JsObject)
    ensures o.Keys == {"nombreCompleto", "rol", "especializacion", "email", "telefono", "estado", "proyectoAsignado"}
    // each property carries its form field as a string
    ensures o["nombreCompleto"] == Str(f.nombreCompleto) && o["rol"] == Str(f.rol)
    ensures o["especializacion"] == Str(f.especializacion) && o["email"] == Str(f.email)
    ensures o["telefono"] == Str(f.telefono) && o["estado"] == Str(f.estado)
    ensures o["proyectoAsignado"] == Str(f.proyectoAsignado)
  {
    map[
      "nombreCompleto" := Str(f.nombreCompleto), "rol" := Str(f.rol),
      "especializacion" := Str(f.especializacion), "email" := Str(f.email),
      "telefono" := Str(f.telefono), "estado" := Str(f.estado),
      "proyectoAsignado" := Str(f.proyectoAsignado)]
  }

  /** The POST that `handleSubmit` sends. */
  function CreateRequest(f: ResourceForm): Request {
    Request(Post, PersonalUrl, FormBody(f))
  }

  /** The form's body, read as the resources API reads a POST body, has no
      `nombre_completo`: that service would refuse it with a 400. */
  lemma ResourcesApiWouldRefuse(f: ResourceForm)
    ensures !RecursosApi.CreateAccepted(RecursosApi.BodyOf(CreateRequest(f).body))
  {
    assert "nombre_completo" !in FormBody(f);
  }

  class ResourcesFormState {
    var form: ResourceForm

    constructor ()
      ensures form == InitialResourceForm()
    {
      form := InitialResourceForm();
    }

    /** `handleChange`. */
    method HandleChange(field: ResourceField, value: string)
      modifies this
      ensures form == SetField(old(form), field, value)
    {
      form := SetField(form, field, value);
    }

    /** `handleSubmit`. `outcome` is how the request ends, when one is sent.
        Returns the request sent, the alert shown and whether `onSuccess` ran. */
    method HandleSubmit(outcome: Outcome) returns (sent: Option<Request>, alert: Option<string>, notified: bool)
      modifies this
      ensures !Complete(old(form)) ==>
                sent == None && alert == Some(IncompleteMessage) && !notified && form == old(form)
      ensures Complete(old(form)) ==> sent == Some(CreateRequest(old(form))) && alert == None
      ensures Complete(old(form)) && Succeeded(outcome) ==> form == InitialResourceForm() && notified
      // a non-ok response and a rejection keep what was typed
      ensures Complete(old(form)) && !Succeeded(outcome) ==> form == old(form) && !notified
    {
      if form.nombreCompleto == "" || form.rol == "" || form.email == "" {
        return None, Some(IncompleteMessage), false;
      }
      sent := Some(CreateRequest(form));
      alert := None;
      notified := false;
      if outcome.Responded? && outcome.ok {
        form := InitialResourceForm();
        notified := true;
      }
    }
  }
}
