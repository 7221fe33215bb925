/** The `/proyectos` REST service of proyectos-api: the table
    `proyectos_schema.proyectos` and its CRUD handlers. */
module ProyectosApi {
  import opened Json
  import opened Store

  /** A row of the projects table without its id. */
  datatype Proyecto = Proyecto(name: Cell, description: Cell)

  /** The two properties POST and PUT destructure from the JSON body. */
  datatype ProyectoBody = ProyectoBody(name: Value, description: Value)

  const NameRequired := "name required"
  const ProyectoNotFound := "Proyecto no encontrado"

  /** The row the INSERT of POST stores: `[name, description || null]`. */
  function Inserted(body: ProyectoBody): (p: Proyecto)
    ensures p.name == Param(body.name)
    ensures Truthy(body.description) ==> p.description == Txt(body.description.s)
    ensures !Truthy(body.description) ==> p.description == SqlNull
    // a created project never has an empty description
    ensures p.description != Txt("")
  {
    Proyecto(Param(body.name), Param(Or(body.description, Null)))
  }

  /** The row the UPDATE of PUT leaves: `COALESCE` on both columns. */
  function Merge(current: Proyecto, patch: ProyectoBody): (p: Proyecto)
    ensures patch.name.Str? ==> p.name == Txt(patch.name.s)
    ensures !patch.name.Str? ==> p.name == current.name
    ensures patch.description.Str? ==> p.description == Txt(patch.description.s)
    ensures !patch.description.Str? ==> p.description == current.description
  {
    Proyecto(Coalesce(Param(patch.name), current.name), Coalesce(Param(patch.description), current.description))
  }

  /** An empty description is dropped to NULL by a create but stored by an
      update: the two handlers treat `""` differently. */
  lemma EmptyDescriptionAsymmetry(current: Proyecto, name: Value)
    ensures Inserted(ProyectoBody(name, Str(""))).description == SqlNull
    ensures Merge(current, ProyectoBody(Undefined, Str(""))).description == Txt("")
  {
  }

  /** GET `/proyectos`: every row, ascending by id. */
  function List(rows: Table<Proyecto>, storeFails: bool): (r: Response<seq<Row<Proyecto>>>)
    ensures r.Ok? <==> !storeFails
    ensures r.Ok? ==> |r.body| == |rows| && StrictlyAscending(r.body)
    ensures r.Ok? ==> forall i :: 0 <= i < |r.body| ==> r.body[i].id in rows && r.body[i].data == rows[r.body[i].id]
    ensures r.Ok? ==> forall id :: id in rows ==> Row(id, rows[id]) in r.body
  {
    ListRows(rows, storeFails)
  }

  /** GET `/proyectos/:id`. */
  function Get(rows: Table<Proyecto>, id: nat, storeFails: bool): (r: Response<Row<Proyecto>>)
    ensures r.Status() == 404 <==> !storeFails && id !in rows
    ensures r.Status() == 200 <==> !storeFails && id in rows
    ensures r.Ok? ==> r.body == Row(id, rows[id])
    ensures r.NotFound? ==> r.error == ProyectoNotFound
    ensures storeFails ==> r == ServerError("query failed")
  {
    GetRow(rows, id, ProyectoNotFound, storeFails)
  }

  /** The projects table and the handlers that change it. */
  class ProyectosTable {
    var rows: Table<Proyecto>

    constructor (initial: Table<Proyecto>)
      ensures rows == initial
    {
      rows := initial;
    }

    /** POST `/proyectos`. `freshId` is the id the store assigns. */
    method Create(body: ProyectoBody, freshId: nat, storeFails: bool) returns (resp: Response<Row<Proyecto>>)
      requires freshId !in rows
      modifies this
      ensures !Truthy(body.name) ==> resp == BadRequest(NameRequired) && rows == old(rows)
      ensures Truthy(body.name) && storeFails ==> resp == ServerError("insert failed") && rows == old(rows)
      ensures Truthy(body.name) && !storeFails ==>
                resp == Created(Row(freshId, Inserted(body))) && rows == old(rows)[freshId := Inserted(body)]
      // a successful create is visible to a following GET
      ensures resp.Created? ==> Get(rows, freshId, false) == Ok(resp.body)
    {
      if !Truthy(body.name) {
        return BadRequest(NameRequired);
      }
      if storeFails {
        return ServerError("insert failed");
      }
      var p := Inserted(body);
      rows := rows[freshId := p];
      resp := Created(Row(freshId, p));
    }

    /** PUT `/proyectos/:id`. */
    method Update(id: nat, patch: ProyectoBody, storeFails: bool) returns (resp: Response<Row<Proyecto>>)
      modifies this
      ensures storeFails ==> resp == ServerError("update failed") && rows == old(rows)
      ensures !storeFails && id !in old(rows) ==> resp == NotFound(ProyectoNotFound) && rows == old(rows)
      ensures !storeFails && id in old(rows) ==>
                resp == Ok(Row(id, Merge(old(rows)[id], patch))) && rows == old(rows)[id := Merge(old(rows)[id], patch)]
      // no row is added or removed, and no other row changes
      ensures rows.Keys == old(rows).Keys
      ensures forall k :: k in rows && k != id ==> rows[k] == old(rows)[k]
    {
      if storeFails {
        return ServerError("update failed");
      }
      if id !in rows {
        return NotFound(ProyectoNotFound);
      }
      var p := Merge(rows[id], patch);
      rows := rows[id := p];
      resp := Ok(Row(id, p));
    }

    /** DELETE `/proyectos/:id`. */
    method Delete(id: nat, storeFails: bool) returns (resp: Response<Deleted>)
      modifies this
      ensures storeFails ==> resp == ServerError("delete failed") && rows == old(rows)
      ensures !storeFails && id !in old(rows) ==> resp == NotFound(ProyectoNotFound) && rows == old(rows)
      ensures !storeFails && id in old(rows) ==> resp == Ok(Deleted(id)) && rows == old(rows) - {id}
      // after a delete that reached the store, a GET of that id is a 404
      ensures !storeFails ==> Get(rows, id, false) == NotFound(ProyectoNotFound)
    {
      if storeFails {
        return ServerError("delete failed");
      }
      if id !in rows {
        return NotFound(ProyectoNotFound);
      }
      rows := rows - {id};
      resp := Ok(Deleted(id));
    }
  }
}
