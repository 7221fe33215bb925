/** The `/recursos` REST service of recursos-api: the table
    `recursos_schema.recursos` of staff members and its CRUD handlers. */
module RecursosApi {
  import opened Json
  import opened Store

  /** A row of the resources table without its id. */
  datatype Recurso = Recurso(
    nombreCompleto: Cell, rol: Cell, especializacion: Cell, email: Cell,
    telefono: Cell, estado: Cell, proyectoAsignado: Cell)

  /** The seven properties POST and PUT destructure from the JSON body. */
  datatype RecursoBody = RecursoBody(
    nombreCompleto: Value, rol: Value, especializacion: Value, email: Value,
    telefono: Value, estado: Value, proyectoAsignado: Value)

  /** The column names, which are also the JSON property names. */
  const Columns: seq<string> :=
    ["nombre_completo", "rol", "especializacion", "email", "telefono", "estado", "proyecto_asignado"]

  const MissingFields := "nombre_completo, rol y email son requeridos"
  const RecursoNotFound := "Recurso no encontrado"

  /** `const { nombre_completo, rol, ... } = req.body`: each property read
      by its snake_case name. */
  function BodyOf(o: JsObject): (b: RecursoBody)
    ensures b.nombreCompleto == Prop(o, "nombre_completo") && b.rol == Prop(o, "rol")
    ensures b.especializacion == Prop(o, "especializacion") && b.email == Prop(o, "email")
    ensures b.telefono == Prop(o, "telefono") && b.estado == Prop(o, "estado")
    ensures b.proyectoAsignado == Prop(o, "proyecto_asignado")
  {
    RecursoBody(
      Prop(o, "nombre_completo"), Prop(o, "rol"), Prop(o, "especializacion"), Prop(o, "email"),
      Prop(o, "telefono"), Prop(o, "estado"), Prop(o, "proyecto_asignado"))
  }

  /** The validation of POST: `nombre_completo`, `rol` and `email` must be truthy. */
  predicate CreateAccepted(body: RecursoBody) {
    Truthy(body.nombreCompleto) && Truthy(body.rol) && Truthy(body.email)
  }

  /** The row the INSERT of POST stores: the seven properties bound as they
      are, with no defaults, so a missing optional property is NULL. */
  function Inserted(body: RecursoBody): (r: Recurso)
    ensures r.nombreCompleto == Param(body.nombreCompleto) && r.rol == Param(body.rol)
    ensures r.especializacion == Param(body.especializacion) && r.email == Param(body.email)
    ensures r.telefono == Param(body.telefono) && r.estado == Param(body.estado)
    ensures r.proyectoAsignado == Param(body.proyectoAsignado)
  {
    Recurso(
      Param(body.nombreCompleto), Param(body.rol), Param(body.especializacion), Param(body.email),
      Param(body.telefono), Param(body.estado), Param(body.proyectoAsignado))
  }

  /** An accepted create stores no NULL in the three required columns, but
      still stores an empty optional property as an empty string. */
  lemma InsertedKeepsEmptyStrings(body: RecursoBody)
    requires CreateAccepted(body) && body.estado == Str("")
    ensures Inserted(body).nombreCompleto.Txt? && Inserted(body).rol.Txt? && Inserted(body).email.Txt?
    ensures Inserted(body).estado == Txt("")
  {
  }

  /** The row the UPDATE of PUT leaves: `col = COALESCE($k, col)` for each
      of the seven columns. */
  function Merge(current: Recurso, patch: RecursoBody): (r: Recurso)
    // a string property, even "", overwrites its column ...
    ensures patch.nombreCompleto.Str? ==> r.nombreCompleto == Txt(patch.nombreCompleto.s)
    ensures patch.rol.Str? ==> r.rol == Txt(patch.rol.s)
    ensures patch.especializacion.Str? ==> r.especializacion == Txt(patch.especializacion.s)
    ensures patch.email.Str? ==> r.email == Txt(patch.email.s)
    ensures patch.telefono.Str? ==> r.telefono == Txt(patch.telefono.s)
    ensures patch.estado.Str? ==> r.estado == Txt(patch.estado.s)
    ensures patch.proyectoAsignado.Str? ==> r.proyectoAsignado == Txt(patch.proyectoAsignado.s)
    // ... a null or missing one keeps the old value
    ensures !patch.nombreCompleto.Str? ==> r.nombreCompleto == current.nombreCompleto
    ensures !patch.rol.Str? ==> r.rol == current.rol
    ensures !patch.especializacion.Str? ==> r.especializacion == current.especializacion
    ensures !patch.email.Str? ==> r.email == current.email
    ensures !patch.telefono.Str? ==> r.telefono == current.telefono
    ensures !patch.estado.Str? ==> r.estado == current.estado
    ensures !patch.proyectoAsignado.Str? ==> r.proyectoAsignado == current.proyectoAsignado
  {
    Recurso(
      Coalesce(Param(patch.nombreCompleto), current.nombreCompleto),
      Coalesce(Param(patch.rol), current.rol),
      Coalesce(Param(patch.especializacion), current.especializacion),
      Coalesce(Param(patch.email), current.email),
      Coalesce(Param(patch.telefono), current.telefono),
      Coalesce(Param(patch.estado), current.estado),
      Coalesce(Param(patch.proyectoAsignado), current.proyectoAsignado))
  }

  /** GET `/recursos`: every row, ascending by id. */
  function List(rows: Table<Recurso>, storeFails: bool): (r: Response<seq<Row<Recurso>>>)
    ensures r.Ok? <==> !storeFails
    ensures r.Ok? ==> |r.body| == |rows| && StrictlyAscending(r.body)
    ensures r.Ok? ==> forall i :: 0 <= i < |r.body| ==> r.body[i].id in rows && r.body[i].data == rows[r.body[i].id]
    ensures r.Ok? ==> forall id :: id in rows ==> Row(id, rows[id]) in r.body
  {
    ListRows(rows, storeFails)
  }

  /** GET `/recursos/:id`. */
  function Get(rows: Table<Recurso>, id: nat, storeFails: bool): (r: Response<Row<Recurso>>)
    ensures r.Status() == 404 <==> !storeFails && id !in rows
    ensures r.Status() == 200 <==> !storeFails && id in rows
    ensures r.Ok? ==> r.body == Row(id, rows[id])
    ensures r.NotFound? ==> r.error == RecursoNotFound
    ensures storeFails ==> r == ServerError("query failed")
  {
    GetRow(rows, id, RecursoNotFound, storeFails)
  }

  /** A row as `res.json` sends it: the numeric `id` of `SELECT *` and an
      object with the seven columns under their snake_case names. */
  datatype ApiRecurso = ApiRecurso(id: nat, props: JsObject)

  /** The JSON of one row, with NULL as `null`. */
  function RecursoJson(row: Row<Recurso>): (o: ApiRecurso)
    ensures o.id == row.id
    ensures o.props.Keys == {"nombre_completo", "rol", "especializacion", "email", "telefono", "estado", "proyecto_asignado"}
    ensures Prop(o.props, "nombre_completo") == ToJson(row.data.nombreCompleto) && Prop(o.props, "rol") == ToJson(row.data.rol)
    ensures Prop(o.props, "especializacion") == ToJson(row.data.especializacion) && Prop(o.props, "email") == ToJson(row.data.email)
    ensures Prop(o.props, "telefono") == ToJson(row.data.telefono) && Prop(o.props, "estado") == ToJson(row.data.estado)
    ensures Prop(o.props, "proyecto_asignado") == ToJson(row.data.proyectoAsignado)
    // the camelCase spelling the resource screens also read is absent
    ensures "proyectoAsignado" !in o.props && "nombreCompleto" !in o.props
  {
    var r := row.data;
    ApiRecurso(row.id, map[
      "nombre_completo" := ToJson(r.nombreCompleto), "rol" := ToJson(r.rol),
      "especializacion" := ToJson(r.especializacion), "email" := ToJson(r.email),
      "telefono" := ToJson(r.telefono), "estado" := ToJson(r.estado),
      "proyecto_asignado" := ToJson(r.proyectoAsignado)])
  }

  /** The resources table and the handlers that change it. */
  class RecursosTable {
    var rows: Table<Recurso>

    constructor (initial: Table<Recurso>)
      ensures rows == initial
    {
      rows := initial;
    }

    /** POST `/recursos`. `freshId` is the id the store assigns. */
    method Create(body: RecursoBody, freshId: nat, storeFails: bool) returns (resp: Response<Row<Recurso>>)
      requires freshId !in rows
      modifies this
      ensures !CreateAccepted(body) ==> resp == BadRequest(MissingFields) && rows == old(rows)
      ensures CreateAccepted(body) && storeFails ==> resp == ServerError("insert failed") && rows == old(rows)
      ensures CreateAccepted(body) && !storeFails ==>
                resp == Created(Row(freshId, Inserted(body))) && rows == old(rows)[freshId := Inserted(body)]
      // a successful create is visible to a following GET
      ensures resp.Created? ==> Get(rows, freshId, false) == Ok(resp.body)
    {
      if !Truthy(body.nombreCompleto) || !Truthy(body.rol) || !Truthy(body.email) {
        return BadRequest(MissingFields);
      }
      if storeFails {
        return ServerError("insert failed");
      }
      var r := Inserted(body);
      rows := rows[freshId := r];
      resp := Created(Row(freshId, r));
    }

    /** PUT `/recursos/:id`. */
    method Update(id: nat, patch: RecursoBody, storeFails: bool) returns (resp: Response<Row<Recurso>>)
      modifies this
      ensures storeFails ==> resp == ServerError("update failed") && rows == old(rows)
      ensures !storeFails && id !in old(rows) ==> resp == NotFound(RecursoNotFound) && rows == old(rows)
      ensures !storeFails && id in old(rows) ==>
                resp == Ok(Row(id, Merge(old(rows)[id], patch))) && rows == old(rows)[id := Merge(old(rows)[id], patch)]
      // no row is added or removed, and no other row changes
      ensures rows.Keys == old(rows).Keys
      ensures forall k :: k in rows && k != id ==> rows[k] == old(rows)[k]
    {
      if storeFails {
        return ServerError("update failed");
      }
      if id !in rows {
        return NotFound(RecursoNotFound);
      }
      var r := Merge(rows[id], patch);
      rows := rows[id := r];
      resp := Ok(Row(id, r));
    }

    /** DELETE `/recursos/:id`. */
    method Delete(id: nat, storeFails: bool) returns (resp: Response<Deleted>)
      modifies this
      ensures storeFails ==> resp == ServerError("delete failed") && rows == old(rows)
      ensures !storeFails && id !in old(rows) ==> resp == NotFound(RecursoNotFound) && rows == old(rows)
      ensures !storeFails && id in old(rows) ==> resp == Ok(Deleted(id)) && rows == old(rows) - {id}
      // after a delete that reached the store, no row has that id
      ensures !storeFails ==> Get(rows, id, false).NotFound?
    {
      if storeFails {
        return ServerError("delete failed");
      }
      if id !in rows {
        return NotFound(RecursoNotFound);
      }
      rows := rows - {id};
      resp := Ok(Deleted(id));
    }
  }
}
