/** `documentService` of frontend-documental: the calls it makes to the
    documents API and the translation between the API's English field names
    and the client's Spanish ones. */
module DocumentService {
  import opened Json
  import opened Store
  import opened Text
  import opened Options
  import DocumentsApi
  import DocumentsRoutes

  /** A document as the API sends it: the JSON of a table row. `fecha` is
      read by the client, but no handler sends it. */
  datatype ApiDocument = ApiDocument(
    id: nat, name: Value, docType: Value, project: Value,
    version: Value, status: Value, createdBy: Value, fecha: Value)

  /** The JSON `res.json` sends for a row of the documents table. */
  function FromRow(row: Row<DocumentsApi.Document>): (a: ApiDocument)
    ensures a.id == row.id && a.name == ToJson(row.data.name) && a.status == ToJson(row.data.status)
    ensures a.docType == ToJson(row.data.docType) && a.project == ToJson(row.data.project) && a.version == ToJson(row.data.version)
    ensures a.createdBy == ToJson(row.data.createdBy) && a.fecha == Undefined
  {
    var d := row.data;
    ApiDocument(row.id, ToJson(d.name), ToJson(d.docType), ToJson(d.project),
                ToJson(d.version), ToJson(d.status), ToJson(d.createdBy), Undefined)
  }

  /** A document as the client holds it. */
  datatype Documento = Documento(
    id: nat, nombre: Value, tipo: Value, proyecto: Value,
    version: Value, estado: Value, creadoPor: Value, fecha: Value)

  // ---------------------------------------------------------------- status names

  /** The Spanish status an own key of the `estados` table maps to: the four
      English names and the four Spanish names themselves. */
  function EstadoFor(s: string): (r: Option<string>)
    ensures r.Some? ==> r.value in SpanishStatuses
  {
    if s == "draft" then Some("Borrador")
    else if s == "active" then Some("Activo")
    else if s == "review" then Some("En Revisión")
    else if s == "archived" then Some("Archivado")
    else if s in SpanishStatuses then Some(s)
    else None
  }

  const SpanishStatuses: set<string> := {"Borrador", "Activo", "En Revisión", "Archivado"}
  const EnglishStatuses: set<string> := {"draft", "active", "review", "archived"}

  /** `transformarEstado` as intended: an own key of the table is replaced by
      its Spanish name, anything else is returned unchanged. (The table's
      values are all non-empty, so the `|| estadoIngles` fallback applies
      exactly when the key is missing.) */
  function TransformarEstado(v: Value): (r: Value)
    ensures v == Str("draft") ==> r == Str("Borrador")
    ensures v == Str("active") ==> r == Str("Activo")
    ensures v == Str("review") ==> r == Str("En Revisión")
    ensures v == Str("archived") ==> r == Str("Archivado")
    // Spanish names are fixed points, and the result is Spanish or the input
    ensures v.Str? && v.s in SpanishStatuses ==> r == v
    ensures r == v || (r.Str? && r.s in SpanishStatuses)
    ensures !(v.Str? && v.s in EnglishStatuses) ==> r == v
  {
    if v.Str? && EstadoFor(v.s).Some? then Str(EstadoFor(v.s).value) else v
  }

  /** Translating twice is translating once. */
  lemma TransformarEstadoIdempotent(v: Value)
    ensures TransformarEstado(TransformarEstado(v)) == TransformarEstado(v)
  {
  }

  /** The properties every plain JavaScript object inherits from
      `Object.prototype`; reading one of them from the `estados` literal
      gives a function (or, for `__proto__`, an object), never `undefined`. */
  const ObjectPrototypeMembers: set<string> := {
    "constructor", "hasOwnProperty", "isPrototypeOf", "propertyIsEnumerable",
    "toLocaleString", "toString", "valueOf", "__proto__",
    "__defineGetter__", "__defineSetter__", "__lookupGetter__", "__lookupSetter__"}

  /** What `transformarEstado` returns as written: a string value, or one
      of the inherited members of `Object.prototype`. */
  datatype EstadoResult = Text(value: Value) | PrototypeMember(name: string)

  /** `estados[estadoIngles] || estadoIngles` with JavaScript's property
      lookup: the key is the value turned into a string, own keys come first,
      then the inherited ones, which are all truthy. */
  function TransformarEstadoAsWritten(v: Value): (r: EstadoResult)
    ensures r.PrototypeMember? <==> v.Str? && EstadoFor(v.s).None? && v.s in ObjectPrototypeMembers
  {
    var key := Interpolate(v);
    if EstadoFor(key).Some? then Text(Str(EstadoFor(key).value))
    else if key in ObjectPrototypeMembers then PrototypeMember(key)
    else Text(v)
  }

  /** With the status "constructor", `transformarEstado` returns the
      `Object` constructor instead of the string. */
  lemma ConstructorStatusIsNotPassedThrough()
    ensures TransformarEstadoAsWritten(Str("constructor")) == PrototypeMember("constructor")
    ensures TransformarEstado(Str("constructor")) == Str("constructor")
  {
    assert "constructor" !in SpanishStatuses;
  }

  /** Away from the inherited member names the code as written and the
      intended function agree. */
  lemma AsWrittenAgrees(v: Value)
    requires !(v.Str? && v.s in ObjectPrototypeMembers)
    ensures TransformarEstadoAsWritten(v) == Text(TransformarEstado(v))
  {
    var key := Interpolate(v);
    if !v.Str? {
      assert key == "undefined" || key == "null";
      assert EstadoFor(key).None? && key !in ObjectPrototypeMembers;
    }
  }

  // ---------------------------------------------------------------- field mapping

  /** One element of the `map` in `getAllDocuments`; `today` is the date
      `new Date().toISOString().split('T')[0]` reads from the clock. */
  function ToDocumento(doc: ApiDocument, today: string): (d: Documento)
    ensures d.id == doc.id && d.nombre == doc.name && d.tipo == doc.docType && d.proyecto == doc.project
    ensures d.version == doc.version && d.creadoPor == doc.createdBy
    ensures d.estado == TransformarEstado(doc.status)
    ensures d.fecha == Or(doc.fecha, Str(today))
  {
    Documento(doc.id, doc.name, doc.docType, doc.project, doc.version,
              TransformarEstado(doc.status), doc.createdBy, Or(doc.fecha, Str(today)))
  }

  /** `getAllDocuments`: the list in the same order, each element renamed. */
  function GetAllDocuments(docs: seq<ApiDocument>, today: string): (r: seq<Documento>)
    ensures |r| == |docs|
    ensures forall i :: 0 <= i < |docs| ==> r[i] == ToDocumento(docs[i], today)
  {
    seq(|docs|, i requires 0 <= i < |docs| => ToDocumento(docs[i], today))
  }

  /** `getDocumentById`: the same renaming, without `fecha`. */
  function GetDocumentById(doc: ApiDocument): (d: Documento)
    ensures forall today :: d == ToDocumento(doc, today).(fecha := Undefined)
  {
    Documento(doc.id, doc.name, doc.docType, doc.project, doc.version,
              TransformarEstado(doc.status), doc.createdBy, Undefined)
  }

  /** Every document the API sends gets today's date when listed, since no
      handler sends a `fecha`. */
  lemma ListedDocumentsAreDatedToday(row: Row<DocumentsApi.Document>, today: string)
    requires today != ""
    ensures ToDocumento(FromRow(row), today).fecha == Str(today)
  {
  }

  /** The `apiData` object of `createDocument` and `updateDocument`: the six
      English properties, taken from the Spanish ones. */
  function ApiData(nombre: Value, tipo: Value, proyecto: Value, version: Value, estado: Value, creadoPor: Value): (b: DocumentsApi.DocumentBody)
    ensures b.name == nombre && b.docType == tipo && b.project == proyecto
    ensures b.version == version && b.status == estado && b.createdBy == creadoPor
  {
    DocumentsApi.DocumentBody(nombre, tipo, proyecto, version, estado, creadoPor)
  }

  /** The body sent for a client document. */
  function Payload(d: Documento): DocumentsApi.DocumentBody {
    ApiData(d.nombre, d.tipo, d.proyecto, d.version, d.estado, d.creadoPor)
  }

  /** Mapping a document to the client and back gives the six fields the API
      sent, exactly when its status is not one of the four English names. */
  lemma RoundTrip(doc: ApiDocument, today: string)
    ensures var b := Payload(ToDocumento(doc, today));
            b == DocumentsApi.DocumentBody(doc.name, doc.docType, doc.project, doc.version, doc.status, doc.createdBy)
            <==> !(doc.status.Str? && doc.status.s in EnglishStatuses)
  {
  }

  /** Saving a listed document unchanged leaves its row unchanged, unless
      the row's status was an English name. */
  lemma SaveUnchangedKeepsRow(row: Row<DocumentsApi.Document>, today: string)
    requires !(row.data.status.Txt? && row.data.status.t in EnglishStatuses)
    ensures DocumentsApi.Merge(row.data, Payload(ToDocumento(FromRow(row), today))) == row.data
  {
  }

  // ---------------------------------------------------------------- requests

  /** A request the service sends to the documents API. */
  datatype Call = Call(verb: DocumentsRoutes.Verb, path: seq<string>, body: Option<DocumentsApi.DocumentBody>)

  function GetAllCall(): Call { Call(DocumentsRoutes.Get, ["documents"], None) }
  function GetByIdCall(id: nat): Call { Call(DocumentsRoutes.Get, ["documents", NatToString(id)], None) }
  function StatsCall(): Call { Call(DocumentsRoutes.Get, ["documents", "stats"], None) }
  function CreateCall(apiData: DocumentsApi.DocumentBody): Call { Call(DocumentsRoutes.Post, ["documents"], Some(apiData)) }
  function UpdateCall(id: nat, apiData: DocumentsApi.DocumentBody): Call { Call(DocumentsRoutes.Put, ["documents", NatToString(id)], Some(apiData)) }
  function DeleteCall(id: nat): Call { Call(DocumentsRoutes.Delete, ["documents", NatToString(id)], None) }

  /** The handler a call reaches, by the server's route order. */
  function Reaches(c: Call): Option<DocumentsRoutes.Handler> {
    match DocumentsRoutes.Dispatch(DocumentsRoutes.Registered, c.verb, c.path)
    case None => None
    case Some(d) => Some(d.handler)
  }

  /** The list and create calls reach the list and create handlers. */
  lemma CollectionCallsReachTheirHandlers(apiData: DocumentsApi.DocumentBody)
    ensures Reaches(GetAllCall()) == Some(DocumentsRoutes.ListDocuments)
    ensures Reaches(CreateCall(apiData)) == Some(DocumentsRoutes.CreateDocument)
  {
    var path := ["documents"];
    assert DocumentsRoutes.Matches(DocumentsRoutes.Registered[0], DocumentsRoutes.Post, path);
    DocumentsRoutes.FirstMatchIs(DocumentsRoutes.Registered, DocumentsRoutes.Post, path, 0);
    assert DocumentsRoutes.Matches(DocumentsRoutes.Registered[3], DocumentsRoutes.Get, path);
    DocumentsRoutes.FirstMatchIs(DocumentsRoutes.Registered, DocumentsRoutes.Get, path, 3);
  }

  /** A get by a numeric id reaches the get-by-id handler: a rendered number
      never collides with `stats` or `search`. */
  lemma GetByIdCallReachesGet(id: nat)
    ensures Reaches(GetByIdCall(id)) == Some(DocumentsRoutes.GetDocument)
  {
    var s := NatToString(id);
    NatToStringDigits(id);
    LowerDigits(s);
    assert Lower("stats")[0] == 's' && Lower("search")[0] == 's';
    DocumentsRoutes.OtherIdReachesGet(s);
  }

  /** The stats, update and delete calls reach their handlers. */
  lemma OtherCallsReachTheirHandlers(id: nat, apiData: DocumentsApi.DocumentBody)
    ensures Reaches(StatsCall()) == Some(DocumentsRoutes.DocumentStats)
    ensures Reaches(UpdateCall(id, apiData)) == Some(DocumentsRoutes.UpdateDocument)
    ensures Reaches(DeleteCall(id)) == Some(DocumentsRoutes.DeleteDocument)
  {
    DocumentsRoutes.PutAndDeleteTakeAnyId(NatToString(id));
    DocumentsRoutes.StatsReachesStats();
  }
}
