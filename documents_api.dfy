/** The `/documents` REST service of gestion-documental-api: the table
    `gestion_schema.documents` and its create, read, update, delete and
    stats handlers. */
module DocumentsApi {
  import opened Json
  import opened Store
  import Sets

  /** A row of the documents table without its id. `docType` is the column
      `type` and `createdBy` the column `created_by`. */
  datatype Document = Document(
    name: Cell, docType: Cell, project: Cell,
    version: Cell, status: Cell, createdBy: Cell)

  /** The JSON body of POST and PUT `/documents`: the properties `name`,
      `type`, `project`, `version`, `status` and `created_by`. */
  datatype DocumentBody = DocumentBody(
    name: Value, docType: Value, project: Value,
    version: Value, status: Value, createdBy: Value)

  /** A body with none of the six properties, as `req.body ?? {}` gives
      for a request without a body. */
  const EmptyBody := DocumentBody(Undefined, Undefined, Undefined, Undefined, Undefined, Undefined)

  const MissingFields := "name, type & project required"
  const DocumentNotFound := "Document not found"

  /** The validation of POST: `name`, `type` and `project` must be truthy. */
  predicate CreateAccepted(body: DocumentBody) {
    Truthy(body.name) && Truthy(body.docType) && Truthy(body.project)
  }

  /** The row the INSERT of POST stores: the parameters
      `[name, type, project, version || null, status || "Borrador", created_by || null]`. */
  function Inserted(body: DocumentBody): (d: Document)
    ensures d.name == Param(body.name) && d.docType == Param(body.docType) && d.project == Param(body.project)
    ensures Truthy(body.version) ==> d.version == Txt(body.version.s)
    ensures !Truthy(body.version) ==> d.version == SqlNull
    ensures Truthy(body.status) ==> d.status == Txt(body.status.s)
    ensures !Truthy(body.status) ==> d.status == Txt("Borrador")
    ensures Truthy(body.createdBy) ==> d.createdBy == Txt(body.createdBy.s)
    ensures !Truthy(body.createdBy) ==> d.createdBy == SqlNull
    // a created document always has a non-empty status and never an empty version or creator
    ensures d.status.Txt? && d.status.t != ""
    ensures d.version != Txt("") && d.createdBy != Txt("")
  {
    Document(
      Param(body.name), Param(body.docType), Param(body.project),
      Param(Or(body.version, Null)), Param(Or(body.status, Str("Borrador"))),
      Param(Or(body.createdBy, Null)))
  }

  /** The row the UPDATE of PUT leaves: `col = COALESCE($k, col)` for each of
      the six columns. */
  function Merge(current: Document, patch: DocumentBody): (d: Document)
    // a property that is a string, even the empty one, overwrites its column ...
    ensures patch.name.Str? ==> d.name == Txt(patch.name.s)
    ensures patch.docType.Str? ==> d.docType == Txt(patch.docType.s)
    ensures patch.project.Str? ==> d.project == Txt(patch.project.s)
    ensures patch.version.Str? ==> d.version == Txt(patch.version.s)
    ensures patch.status.Str? ==> d.status == Txt(patch.status.s)
    ensures patch.createdBy.Str? ==> d.createdBy == Txt(patch.createdBy.s)
    // ... and a null or missing one keeps the old value
    ensures !patch.name.Str? ==> d.name == current.name
    ensures !patch.docType.Str? ==> d.docType == current.docType
    ensures !patch.project.Str? ==> d.project == current.project
    ensures !patch.version.Str? ==> d.version == current.version
    ensures !patch.status.Str? ==> d.status == current.status
    ensures !patch.createdBy.Str? ==> d.createdBy == current.createdBy
  {
    Document(
      Coalesce(Param(patch.name), current.name),
      Coalesce(Param(patch.docType), current.docType),
      Coalesce(Param(patch.project), current.project),
      Coalesce(Param(patch.version), current.version),
      Coalesce(Param(patch.status), current.status),
      Coalesce(Param(patch.createdBy), current.createdBy))
  }

  /** Applying the same update twice is applying it once. */
  lemma MergeIdempotent(current: Document, patch: DocumentBody)
    ensures Merge(Merge(current, patch), patch) == Merge(current, patch)
  {
  }

  /** An update with no properties changes nothing. */
  lemma MergeEmptyBody(current: Document)
    ensures Merge(current, EmptyBody) == current
  {
  }

  /** GET `/documents`: every row, ascending by id. */
  function List(rows: Table<Document>, storeFails: bool): (r: Response<seq<Row<Document>>>)
    ensures r.Ok? <==> !storeFails
    ensures r.Ok? ==> |r.body| == |rows| && StrictlyAscending(r.body)
    ensures r.Ok? ==> forall i :: 0 <= i < |r.body| ==> r.body[i].id in rows && r.body[i].data == rows[r.body[i].id]
    ensures r.Ok? ==> forall id :: id in rows ==> Row(id, rows[id]) in r.body
  {
    ListRows(rows, storeFails)
  }

  /** GET `/documents/:id`. */
  function Get(rows: Table<Document>, id: nat, storeFails: bool): (r: Response<Row<Document>>)
    ensures r.Status() == 404 <==> !storeFails && id !in rows
    ensures r.Status() == 200 <==> !storeFails && id in rows
    ensures r.Ok? ==> r.body == Row(id, rows[id])
    ensures r.NotFound? ==> r.error == DocumentNotFound
    ensures storeFails ==> r == ServerError("query failed")
  {
    GetRow(rows, id, DocumentNotFound, storeFails)
  }

  /** The JSON body of GET `/documents/stats`. */
  datatype DocumentStats = DocumentStats(
    total: nat, active: nat, review: nat, draft: nat, archived: nat, projects: nat)

  /** The ids whose status is exactly `s` (`WHERE status = s`). */
  function WithStatus(rows: Table<Document>, s: string): (ids: set<nat>)
    ensures ids <= rows.Keys
    ensures forall id :: id in ids <==> id in rows && rows[id].status == Txt(s)
  {
    set id | id in rows && rows[id].status == Txt(s)
  }

  /** The ids whose project is counted by the stats: neither NULL nor
      'sin asignacion' (`WHERE project != 'sin asignacion'`). */
  function CountedIds(rows: Table<Document>): set<nat> {
    set id | id in rows && rows[id].project.Txt? && rows[id].project.t != "sin asignacion"
  }

  /** `COUNT(DISTINCT project) ... WHERE project != 'sin asignacion'`:
      the distinct project names other than the sentinel. */
  function CountedProjects(rows: Table<Document>): (ps: set<string>)
    ensures forall p :: p in ps <==> p != "sin asignacion" && exists id :: id in rows && rows[id].project == Txt(p)
  {
    set id | id in CountedIds(rows) :: rows[id].project.t
  }

  /** GET `/documents/stats`: the row count, the count of each of the four
      statuses and the number of distinct assigned projects. */
  function Stats(rows: Table<Document>, storeFails: bool): (r: Response<DocumentStats>)
    ensures storeFails <==> r == ServerError("stats query failed")
    ensures r.Ok? <==> !storeFails
    ensures r.Ok? ==> r.body.total == |rows|
    ensures r.Ok? ==> r.body.active == |WithStatus(rows, "Activo")|
    ensures r.Ok? ==> r.body.review == |WithStatus(rows, "En Revisión")|
    ensures r.Ok? ==> r.body.draft == |WithStatus(rows, "Borrador")|
    ensures r.Ok? ==> r.body.archived == |WithStatus(rows, "Archivado")|
    ensures r.Ok? ==> r.body.projects == |CountedProjects(rows)|
    ensures r.Ok? ==> r.body.active + r.body.review + r.body.draft + r.body.archived <= r.body.total
    ensures r.Ok? ==> r.body.projects <= r.body.total
  {
    if storeFails then ServerError("stats query failed")
    else
      var a, v, d, x := WithStatus(rows, "Activo"), WithStatus(rows, "En Revisión"),
                        WithStatus(rows, "Borrador"), WithStatus(rows, "Archivado");
      StatusCountsBounded(rows);
      ProjectsBounded(rows);
      Ok(DocumentStats(|rows|, |a|, |v|, |d|, |x|, |CountedProjects(rows)|))
  }

  /** The four status counts cannot exceed the row count: a row has one status. */
  lemma StatusCountsBounded(rows: Table<Document>)
    ensures |WithStatus(rows, "Activo")| + |WithStatus(rows, "En Revisión")|
          + |WithStatus(rows, "Borrador")| + |WithStatus(rows, "Archivado")| <= |rows|
  {
    var a, v, d, x := WithStatus(rows, "Activo"), WithStatus(rows, "En Revisión"),
                      WithStatus(rows, "Borrador"), WithStatus(rows, "Archivado");
    assert a !! v && a !! d && a !! x && v !! d && v !! x && d !! x;
    assert |a + v| == |a| + |v|;
    assert |a + v + d| == |a + v| + |d|;
    assert |a + v + d + x| == |a + v + d| + |x|;
    Sets.SubsetCard(a + v + d + x, rows.Keys);
  }

  /** There are no more distinct counted projects than rows. */
  lemma ProjectsBounded(rows: Table<Document>)
    ensures |CountedProjects(rows)| <= |rows|
  {
    var ids := CountedIds(rows);
    var f := id requires id in ids => rows[id].project.t;
    Sets.ImageCard(ids, f);
    assert CountedProjects(rows) == Sets.Image(ids, f);
    Sets.SubsetCard(ids, rows.Keys);
    assert |rows.Keys| == |rows|;
  }

  /** The documents table and the handlers that change it. */
  class DocumentsTable {
    var rows: Table<Document>

    constructor (initial: Table<Document>)
      ensures rows == initial
    {
      rows := initial;
    }

    /** POST `/documents`. `freshId` is the id the store assigns. */
    method Create(body: DocumentBody, freshId: nat, storeFails: bool) returns (resp: Response<Row<Document>>)
      requires freshId !in rows
      modifies this
      ensures !CreateAccepted(body) ==> resp == BadRequest(MissingFields) && rows == old(rows)
      ensures CreateAccepted(body) && storeFails ==> resp == ServerError("insert failed") && rows == old(rows)
      ensures CreateAccepted(body) && !storeFails ==>
                resp == Created(Row(freshId, Inserted(body))) && rows == old(rows)[freshId := Inserted(body)]
      // a successful create is visible to a following GET
      ensures resp.Created? ==> Get(rows, freshId, false) == Ok(resp.body)
    {
      if !Truthy(body.name) || !Truthy(body.docType) || !Truthy(body.project) {
        return BadRequest(MissingFields);
      }
      if storeFails {
        return ServerError("insert failed");
      }
      var doc := Inserted(body);
      rows := rows[freshId := doc];
      resp := Created(Row(freshId, doc));
    }

    /** PUT `/documents/:id`. */
    method Update(id: nat, patch: DocumentBody, storeFails: bool) returns (resp: Response<Row<Document>>)
      modifies this
      ensures storeFails ==> resp == ServerError("update failed") && rows == old(rows)
      ensures !storeFails && id !in old(rows) ==> resp == NotFound(DocumentNotFound) && rows == old(rows)
      ensures !storeFails && id in old(rows) ==>
                resp == Ok(Row(id, Merge(old(rows)[id], patch))) && rows == old(rows)[id := Merge(old(rows)[id], patch)]
      // no row is added or removed, and no other row changes
      ensures rows.Keys == old(rows).Keys
      ensures forall k :: k in rows && k != id ==> rows[k] == old(rows)[k]
    {
      if storeFails {
        return ServerError("update failed");
      }
      if id !in rows {
        return NotFound(DocumentNotFound);
      }
      var d := Merge(rows[id], patch);
      rows := rows[id := d];
      resp := Ok(Row(id, d));
    }

    /** DELETE `/documents/:id`. */
    method Delete(id: nat, storeFails: bool) returns (resp: Response<Deleted>)
      modifies this
      ensures storeFails ==> resp == ServerError("delete failed") && rows == old(rows)
      ensures !storeFails && id !in old(rows) ==> resp == NotFound(DocumentNotFound) && rows == old(rows)
      ensures !storeFails && id in old(rows) ==> resp == Ok(Deleted(id)) && rows == old(rows) - {id}
      // after a delete that reached the store, no row has that id
      ensures !storeFails ==> Get(rows, id, false).NotFound?
    {
      if storeFails {
        return ServerError("delete failed");
      }
      if id !in rows {
        return NotFound(DocumentNotFound);
      }
      rows := rows - {id};
      resp := Ok(Deleted(id));
    }
  }

  /** Deleting the same id twice: the second delete is a 404, never a
      silent success. */
  method DeleteTwice(table: DocumentsTable, id: nat) returns (first: Response<Deleted>, second: Response<Deleted>)
    modifies table
    ensures id in old(table.rows) ==> first == Ok(Deleted(id))
    ensures second == NotFound(DocumentNotFound)
    ensures table.rows == old(table.rows) - {id}
  {
    first := table.Delete(id, false);
    second := table.Delete(id, false);
  }

  /** A create without a truthy `project` is refused, whatever the other
      properties hold, a creator included. */
  lemma CreateWithoutProjectRefused(b: DocumentBody)
    requires !Truthy(b.project)
    ensures !CreateAccepted(b)
  {
  }

  /** An update that sends only a status changes the status and nothing
      else. */
  lemma UpdateStatusKeepsName(current: Document, s: string)
    ensures Merge(current, EmptyBody.(status := Str(s))) == current.(status := Txt(s))
  {
  }
}
