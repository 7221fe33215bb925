# Document and resource management: a Dafny model

The system has two parts. One part manages engineering documents. The other manages staff ("recursos") and projects ("proyectos"). Five programs make it up:

- **gestion-documental-api** is an Express service over the Postgres table `gestion_schema.documents`. It offers create, list, get, update and delete, plus `/documents/stats` (counts per status and distinct projects) and `/documents/search` (a SQL query built from up to three criteria). Its routes are registered in a deliberate order.
- **recursos-api** and **proyectos-api** are smaller Express services with the same CRUD shape, over `recursos_schema.recursos` and `proyectos_schema.proyectos`.
- **frontend-documental** is a React client for the documents service:
  - `documentService` translates field names and status names between the service and the client;
  - `App` loads the list and filters it on the client;
  - `SearchFilters` holds the filter inputs;
  - `DocumentForm` creates and edits documents;
  - `DocumentTable` deletes documents, shows status badges and shows the count.
- **frontend-recursos** is a React client for staff:
  - `ProjectResourcesView` groups staff by project;
  - `ProjectAssignment` assigns a staff member to a project;
  - `ResourcesDashboard` shows the counters;
  - `ResourceForm` registers a staff member.

Each source file is modelled in its own form:

- **Handlers that change a table** are methods of a class (`DocumentsTable`, `RecursosTable`, `ProyectosTable`). The class has one field `rows: map<nat, Row>`. The handlers that only read the table (list, get, stats) are functions of that map.
- **The search builder** is a method. Like the original, it grows the SQL text, the parameter list and the counter one criterion at a time. It is proved against the function `Criteria` and the text and parameters that function determines.
- **React components with state** are classes. The state is their fields and each event handler is a method. Derived values (`filtered`, `recursosPorProyecto`, `statsPorProyecto`, `personalDisponible`, the dashboard counters) are functions.
- **JavaScript values in bodies, rows and props** are `Json.Value`: `Undefined`, `Null` or a string. Truthiness, `||` and template interpolation are written out in the `Json` module. Postgres columns are `Store.Cell`: `SqlNull` or text. Binding a parameter (`Param`), `COALESCE` and sending a NULL as `null` are explicit.
- **Outside results are parameters.** A store that fails is `storeFails`. An HTTP call that rejects or answers is `saved`, `deleted` or a `Fetch.Outcome`. The user's answer to `window.confirm` is `confirmed`. The date the clock gives is `today`.

Some behaviours of the code a reader might not expect, all modelled as the code has them:

- **Document create.** It requires `name`, `type` and `project`; the creator is not required (gestion-documental-api/src/app.js:53). A missing `version` is stored as NULL, not `"v1.0"` (line 60). Only the client form starts at `"v1.0"`.
- **Resource create.** It applies no defaults: a missing `estado` or `proyecto_asignado` is stored as NULL (recursos-api/src/app.js:71).
- **Field-name translation.** The translation between service and client is lossy. An English status name is replaced by its Spanish name, so the round trip restores the six fields exactly when the status is not one of the four English names (`DocumentService.RoundTrip`).
- **Resource field names.** The resource screens disagree with each other:
  - `ProjectResourcesView` reads `proyecto_asignado`.
  - `ProjectAssignment` and `ResourceForm` use `proyectoAsignado`.
  - `ProjectAssignment` and `ResourceForm` also send to `http://localhost:4000/api/personal`, not to recursos-api.

  Each file is modelled with the names it uses. The consequences are proved: `OnApiRowsOnlyStatusCounts`, `AssignmentBodyChangesNoRecurso` and `ResourcesApiWouldRefuse`.

## Model

| member | source | states |
|---|---|---|
| DocumentsApi.Inserted | gestion-documental-api/src/app.js:56-62 | The stored row binds name, type and project as given. A falsy version or creator becomes NULL and a falsy status becomes "Borrador". So a created row always has a non-empty status and never an empty version or creator. |
| DocumentsApi.Merge | gestion-documental-api/src/app.js:165-171 | Each of the six columns is overwritten by a string property, even by "", and keeps its old value when the property is null or missing. |
| DocumentsApi.MergeIdempotent | gestion-documental-api/src/app.js:166-168 | Applying the same update twice is the same as applying it once. |
| DocumentsApi.MergeEmptyBody | gestion-documental-api/src/app.js:163-168 | An update with an empty body (`req.body ?? {}`) leaves the row unchanged. |
| DocumentsApi.List | gestion-documental-api/src/app.js:134-143 | A 500 response exactly when the store fails. Otherwise every row of the table appears exactly once, with its own data, by strictly ascending id. |
| DocumentsApi.Get | gestion-documental-api/src/app.js:146-158 | A 404 with "Document not found" exactly when the store works and the id is absent. A 200 with that row exactly when it is present. The 500 "query failed" when the store fails. |
| DocumentsApi.WithStatus | gestion-documental-api/src/app.js:74-77 | The counted ids are exactly the rows whose status equals the given string. |
| DocumentsApi.CountedProjects | gestion-documental-api/src/app.js:80-82 | The counted projects are exactly the names other than 'sin asignacion' that some row has; NULL projects are not counted. |
| DocumentsApi.Stats | gestion-documental-api/src/app.js:71-95 | On success, `total` is the row count and the four fields count their status exactly. `projects` counts the distinct counted projects. The four status counts add up to at most `total`, and `projects` is at most `total`. Otherwise the response is the 500 "stats query failed". |
| DocumentsApi.StatusCountsBounded | gestion-documental-api/src/app.js:73-77 | The four status sets are pairwise disjoint subsets of the rows, so their counts add up to at most the row count. |
| DocumentsApi.ProjectsBounded | gestion-documental-api/src/app.js:80-82 | There are no more distinct counted projects than rows. |
| DocumentsApi.DocumentsTable.Create | gestion-documental-api/src/app.js:51-66 | A 400 with no insert when name, type or project is falsy. A 500 with no insert when the store fails. Otherwise a 201 with the inserted row under the fresh id, which a following get returns. |
| DocumentsApi.DocumentsTable.Update | gestion-documental-api/src/app.js:161-177 | A 500 or a 404 leaves the table unchanged. Otherwise only that row changes, to `Merge`, and no id is added or removed. |
| DocumentsApi.DocumentsTable.Delete | gestion-documental-api/src/app.js:180-189 | A present id is removed and reported as `{deletedId}`, an absent id gives a 404, and a failing store gives a 500. After any delete that reached the store, a get of that id is a 404. |
| DocumentsApi.DeleteTwice | gestion-documental-api/src/app.js:183-185 | A second delete of the same id is a 404. |
| DocumentsApi.CreateWithoutProjectRefused | gestion-documental-api/src/app.js:53 | Every create whose project is falsy is refused, whatever else it carries, a creator included. |
| DocumentsApi.UpdateStatusKeepsName | gestion-documental-api/src/app.js:165-171 | For every row and every status string, an update that sends only that status changes the status to it and nothing else. |
| DocumentsSearch.Criteria | gestion-documental-api/src/app.js:105-121 | One criterion for each truthy query value. |
| DocumentsSearch.CriteriaMembers | gestion-documental-api/src/app.js:105-121 | A criterion is active if and only if its query value is truthy, and it carries that value. |
| DocumentsSearch.CriteriaOrder | gestion-documental-api/src/app.js:105-121 | Active criteria come in the handler's order: search, then type, then project. |
| DocumentsSearch.ParamsOfAt | gestion-documental-api/src/app.js:108 | Parameter `$i+1` is the one the i-th criterion binds, with the search text wrapped as `%s%`. |
| DocumentsSearch.ClausesAppend | gestion-documental-api/src/app.js:106-107 | Appending a criterion appends its clause, numbered by the next placeholder. |
| DocumentsSearch.BuildQuery | gestion-documental-api/src/app.js:99-123 | `paramCount` equals the number of parameters and the number of active criteria. The parameters are those of the criteria in order. The text is the base query, one `AND` clause per criterion numbered `$1`, `$2`, ... consecutively, then `ORDER BY id ASC`. |
| DocumentsSearch.AddCriterion | gestion-documental-api/src/app.js:105-109 | One `if` of the builder keeps the text, parameters and counter equal to those of the criteria added so far. |
| DocumentsSearch.Step | gestion-documental-api/src/app.js:106-108 | Incrementing the counter, appending the clause and pushing the parameter keeps the three in step. |
| DocumentsSearch.Selected | gestion-documental-api/src/app.js:125-127 | A row is returned exactly when it satisfies every active criterion: the search matches name or creator case-insensitively, and type and project must be equal. |
| DocumentsSearch.SelectedInOrder | gestion-documental-api/src/app.js:123 | The selection is a subsequence of the ordered table, by strictly ascending id. |
| DocumentsSearch.NoCriteriaSelectsAll | gestion-documental-api/src/app.js:101 | Without criteria the search returns the whole ordered table. |
| DocumentsSearch.Search | gestion-documental-api/src/app.js:98-131 | The handler builds the query; if the store fails the response is the 500 "search failed", otherwise the selected rows. |
| DocumentsRoutes.FirstMatch | gestion-documental-api/src/app.js:68-71 | The handler Express runs is the first registered route whose verb and pattern match; there is none exactly when no route matches. |
| DocumentsRoutes.Dispatch | gestion-documental-api/src/app.js:68-71 | No handler runs exactly when no registered route matches; otherwise the handler that runs belongs to a route that matches. |
| DocumentsRoutes.StatsReachesStats | gestion-documental-api/src/app.js:70-71 | `GET /documents/stats` runs the stats handler, not get-by-id. |
| DocumentsRoutes.SearchReachesSearch | gestion-documental-api/src/app.js:97-98 | `GET /documents/search` runs the search handler, not get-by-id. |
| DocumentsRoutes.OtherIdReachesGet | gestion-documental-api/src/app.js:145-146 | Any other non-empty segment after `/documents/` runs get-by-id with that id. |
| DocumentsRoutes.PutAndDeleteTakeAnyId | gestion-documental-api/src/app.js:161 | PUT and DELETE on `/documents/<id>` reach their handlers with that id. |
| DocumentsRoutes.ShadowedNeverRuns | gestion-documental-api/src/app.js:68 | A route registered after a route that subsumes it is never run. |
| DocumentsRoutes.IdFirstShadowsStats | gestion-documental-api/src/app.js:70 | With `/documents/:id` registered first, `GET /documents/stats` would run get-by-id with id "stats". |
| RecursosApi.BodyOf | recursos-api/src/app.js:49-57 | The handler reads each of the seven properties by its snake_case name; an absent one is undefined. |
| RecursosApi.Inserted | recursos-api/src/app.js:67-72 | The seven properties are bound as given, with no defaults. |
| RecursosApi.InsertedKeepsEmptyStrings | recursos-api/src/app.js:60-71 | An accepted create has text in the three required columns, and still stores an empty optional property as "". |
| RecursosApi.Merge | recursos-api/src/app.js:96-105 | Each of the seven columns is overwritten by a string property, even "", and keeps its value when the property is null or missing. |
| RecursosApi.List | recursos-api/src/app.js:26-33 | Every row exactly once, by strictly ascending id, or a 500. |
| RecursosApi.Get | recursos-api/src/app.js:36-45 | A 404 "Recurso no encontrado" exactly when the store works and the id is absent, a 200 with the row exactly when it is present, and the 500 "query failed" when the store fails. |
| RecursosApi.RecursoJson | recursos-api/src/app.js:28-29 | A row is sent as its id and an object with exactly the seven snake_case columns, each carrying its column's value, with NULL as `null`. The camelCase keys are absent. |
| RecursosApi.RecursosTable.Create | recursos-api/src/app.js:48-84 | A 400 with no insert unless `nombre_completo`, `rol` and `email` are truthy. A 500 with no insert when the store fails. Otherwise a 201 with the inserted row, which a following get returns. |
| RecursosApi.RecursosTable.Update | recursos-api/src/app.js:87-116 | A 500 or a 404 leaves the table unchanged. Otherwise only that row changes, to `Merge`, and no id is added or removed. |
| RecursosApi.RecursosTable.Delete | recursos-api/src/app.js:119-128 | Removes exactly that row and returns `{deletedId}`, or a 404 or a 500 with nothing removed. Afterwards the id is absent. |
| ProyectosApi.Inserted | proyectos-api/src/app.js:57-60 | The name is bound as given and a falsy description becomes NULL, so a created project never has an empty description. |
| ProyectosApi.Merge | proyectos-api/src/app.js:72-77 | The name and the description each follow COALESCE. |
| ProyectosApi.EmptyDescriptionAsymmetry | proyectos-api/src/app.js:59 | For every name and every stored row, an empty description is dropped to NULL by create but stored by update. |
| ProyectosApi.List | proyectos-api/src/app.js:30-37 | Every row exactly once, by strictly ascending id, or a 500. |
| ProyectosApi.Get | proyectos-api/src/app.js:40-49 | A 404 "Proyecto no encontrado" exactly when the store works and the id is absent, a 200 with the row exactly when it is present, and the 500 "query failed" when the store fails. |
| ProyectosApi.ProyectosTable.Create | proyectos-api/src/app.js:52-65 | A 400 "name required" with no insert when the name is falsy. Otherwise a 500, or a 201 with the inserted row that a following get returns. |
| ProyectosApi.ProyectosTable.Update | proyectos-api/src/app.js:68-83 | A 500 or a 404 leaves the table unchanged. Otherwise only that row changes, to `Merge`. |
| ProyectosApi.ProyectosTable.Delete | proyectos-api/src/app.js:86-95 | Returns `{deletedId}` and removes only that row, or returns a 404. After a delete that reached the store, a get of that id is a 404. |
| DocumentService.FromRow | gestion-documental-api/src/app.js:137-139 | The JSON of a row carries its id and its columns, with NULL as `null`, and has no `fecha`. |
| DocumentService.TransformarEstado | frontend-documental/src/services/documentService.js:4-16 | draft, active, review and archived map to Borrador, Activo, En Revisión and Archivado. The Spanish names are fixed points. Every other value is returned unchanged. |
| DocumentService.EstadoFor | frontend-documental/src/services/documentService.js:5-14 | Only a Spanish status name is ever looked up as a translation. |
| DocumentService.TransformarEstadoIdempotent | frontend-documental/src/services/documentService.js:4-16 | Translating twice is translating once. |
| DocumentService.TransformarEstadoAsWritten | frontend-documental/src/services/documentService.js:15 | The lookup as written returns an inherited `Object.prototype` member exactly for a string outside the table that names one. |
| DocumentService.ConstructorStatusIsNotPassedThrough | frontend-documental/src/services/documentService.js:15 | A stored status "constructor" comes back as the `Object` function instead of the string. |
| DocumentService.AsWrittenAgrees | frontend-documental/src/services/documentService.js:5-15 | Away from those names, the code as written agrees with `TransformarEstado`. |
| DocumentService.ToDocumento | frontend-documental/src/services/documentService.js:22-31 | name, type, project, version and created_by go to nombre, tipo, proyecto, version and creadoPor. The status passes through `TransformarEstado`. A falsy `fecha` becomes today's date. |
| DocumentService.GetAllDocuments | frontend-documental/src/services/documentService.js:20-32 | The list keeps its length and order, and each element is renamed by `ToDocumento`. |
| DocumentService.GetDocumentById | frontend-documental/src/services/documentService.js:34-46 | The same renaming as the list, with no `fecha`. |
| DocumentService.ListedDocumentsAreDatedToday | frontend-documental/src/services/documentService.js:30 | The service never sends a `fecha`, so every listed document gets today's date. |
| DocumentService.ApiData | frontend-documental/src/services/documentService.js:50-57 | The body sent holds exactly the six API properties, taken from the six Spanish ones. |
| DocumentService.RoundTrip | frontend-documental/src/services/documentService.js:24-29 | Mapping a document from the API to the client and back restores its six fields if and only if its status is not one of the four English names. |
| DocumentService.SaveUnchangedKeepsRow | frontend-documental/src/services/documentService.js:64-73 | Saving a listed document unchanged leaves its row unchanged, unless the row's status is English. |
| DocumentService.CollectionCallsReachTheirHandlers | frontend-documental/src/services/documentService.js:20-59 | The list and create calls reach the list and create handlers. |
| DocumentService.GetByIdCallReachesGet | frontend-documental/src/services/documentService.js:35 | A get by a numeric id reaches get-by-id, because a rendered number is never `stats` or `search`. |
| DocumentService.OtherCallsReachTheirHandlers | frontend-documental/src/services/documentService.js:73-78 | The stats, update and delete calls reach their handlers. |
| DocumentsApp.Filtered | frontend-documental/src/App.js:34-53 | The view is never longer than the list. |
| DocumentsApp.FilteredIsOneFilter | frontend-documental/src/App.js:37-50 | The three steps in sequence are one filter by the conjunction of the active tests. |
| DocumentsApp.FilteredMembers | frontend-documental/src/App.js:37-50 | A document is visible if and only if it is in the list and passes every non-empty filter. |
| DocumentsApp.LowerField | frontend-documental/src/App.js:39-40 | A field is lowercased exactly when it is a string, the only case where `toLowerCase` does not throw. |
| DocumentsApp.FilteredIsSubsequence | frontend-documental/src/App.js:35 | The view is an order-preserving subsequence of the full list. |
| DocumentsApp.NoFiltersShowAll | frontend-documental/src/App.js:35-52 | With all three filters empty the view is the whole list. |
| DocumentsApp.SearchOnly | frontend-documental/src/App.js:37-42 | With only a search, a document stays exactly when its lowercase name or creator contains the lowercase search. |
| DocumentsApp.StepsCommute | frontend-documental/src/App.js:37-50 | When both a search and a type are set, filtering by type first and by the search after, then by the project when one is set, gives the same view. |
| DocumentsApp.MatchesSearchAsWritten | frontend-documental/src/App.js:38-41 | As written, the test throws exactly when the name is not a string, or when the name does not match and the creator is not a string. |
| DocumentsApp.AsWrittenAgreesWhenDefined | frontend-documental/src/App.js:38-41 | Where the written test does not throw, it agrees with the intended test. |
| DocumentsApp.NullCreatorThrows | frontend-documental/src/App.js:40 | A document with a null creator, searched by a text its name does not contain, makes the written test throw. |
| DocumentsApp.AppState.LoadDocuments | frontend-documental/src/App.js:20-31 | A successful load sets both lists to the renamed response, which resets the view. A failed load keeps both lists. Loading ends false either way. |
| DocumentsApp.AppState.HandleFilterChange | frontend-documental/src/App.js:34-53 | The view becomes `Filtered` of the full list under the new filters, with the corrected search test (see the findings). |
| DocumentsApp.AppState.HandleDocumentChanged | frontend-documental/src/App.js:56-63 | Creating or updating a document triggers a full reload. |
| DocumentsApp.NarrowThenWiden | frontend-documental/src/App.js:35 | Narrowing and then widening the filters yields the view of the wide filters alone. |
| DocumentsApp.AppState.constructor | frontend-documental/src/App.js:10-12 | The app starts with no documents, an empty view and loading true. |
| SearchFilters.With | frontend-documental/src/components/SearchFilters.jsx:35-38 | Only the named key changes. |
| SearchFilters.WithSameValue | frontend-documental/src/components/SearchFilters.jsx:35-38 | Setting a key to its current value changes nothing. |
| SearchFilters.OptionValue | frontend-documental/src/components/SearchFilters.jsx:71 | The "all" entry of a select has the value ''; every other entry has its own name as value. |
| SearchFilters.OnlyAllOptionIsEmpty | frontend-documental/src/components/SearchFilters.jsx:70-71 | In both selects, exactly the "all" option has the value '', so it alone switches its filter off. |
| SearchFilters.UnassignedOptionKeepsRawValue | frontend-documental/src/components/SearchFilters.jsx:86-88 | The unassigned option sends the raw 'sin asignacion' and only shows 'Sin asignación'. |
| SearchFilters.SearchFiltersState.constructor | frontend-documental/src/components/SearchFilters.jsx:5-9 | The filters start all empty. |
| SearchFilters.SearchFiltersState.HandleChange | frontend-documental/src/components/SearchFilters.jsx:33-43 | One key is replaced, and the callback, when there is one, receives the new filters rather than the previous state. |
| DocumentForm.Prefill | frontend-documental/src/components/DocumentForm.jsx:20-31 | Each truthy field of the edited document is copied. Each falsy one takes the empty form's value, and a falsy date takes today's. So project, version and status are never empty. |
| DocumentForm.SetField | frontend-documental/src/components/DocumentForm.jsx:57-61 | Only the field named by the input changes, to the input's value. |
| DocumentForm.InitialFormIsIncomplete | frontend-documental/src/components/DocumentForm.jsx:6-14 | The empty form cannot be submitted. |
| DocumentForm.FormPayload | frontend-documental/src/components/DocumentForm.jsx:78-82 | The body carries the form's name, type, project, version, status and creator as strings. A complete form with a project passes the documents service's validation. |
| DocumentForm.FormPayloadIgnoresFecha | frontend-documental/src/components/DocumentForm.jsx:10 | The date field never reaches the service. |
| DocumentForm.SubmitReachesHandler | frontend-documental/src/components/DocumentForm.jsx:78-82 | When editing, a submit reaches the update handler; otherwise it reaches the create handler. |
| DocumentForm.CreateThenEditRoundTrip | frontend-documental/src/components/DocumentForm.jsx:20-31 | Suppose a form has a version and a non-English status. Created, listed back and opened for editing, it fills the form with what was typed, except that the date is today's. |
| DocumentForm.NullVersionBecomesDefault | frontend-documental/src/components/DocumentForm.jsx:27 | Opening a document without a version and saving it unchanged stores "v1.0". |
| DocumentForm.DocumentFormState.constructor | frontend-documental/src/components/DocumentForm.jsx:6-17 | The form starts as the empty form for today, not loading and without an error. |
| DocumentForm.DocumentFormState.LoadEdit | frontend-documental/src/components/DocumentForm.jsx:20-32 | A given document fills the form; without one the form is unchanged. |
| DocumentForm.DocumentFormState.HandleChange | frontend-documental/src/components/DocumentForm.jsx:57-64 | Only the named field changes and the error is cleared. |
| DocumentForm.DocumentFormState.HandleSubmit | frontend-documental/src/components/DocumentForm.jsx:66-108 | An incomplete form sets the error and sends nothing. Otherwise exactly one update (edited id) or create is sent. Success resets the form and runs the callback. Failure keeps the form and sets the message for the mode. Loading ends false. |
| DocumentTable.HandleDelete | frontend-documental/src/components/DocumentTable.jsx:6-23 | A refusal sends nothing. An acceptance sends the delete of that id and reports the outcome. The list is reloaded exactly after a successful delete with a callback. |
| DocumentTable.DeleteSendsToDeleteHandler | frontend-documental/src/components/DocumentTable.jsx:9 | Every request the delete sends reaches the service's delete handler. |
| DocumentTable.GetStatusClass | frontend-documental/src/components/DocumentTable.jsx:25-38 | The class is one of four. It is the review, archived or draft class exactly when the lowercased status is 'en revisión', 'archivado' or 'borrador'. |
| DocumentTable.StatusClassIgnoresCase | frontend-documental/src/components/DocumentTable.jsx:26 | The badge does not depend on letter case. |
| DocumentTable.SpanishStatusesHaveTheirOwnClass | frontend-documental/src/components/DocumentTable.jsx:27-34 | The four Spanish statuses get four different classes. |
| DocumentTable.MissingStatusLooksActive | frontend-documental/src/components/DocumentTable.jsx:35-36 | A missing status gets 'status-active', the same class as Activo. |
| DocumentTable.FooterTextInjective | frontend-documental/src/components/DocumentTable.jsx:90 | The footer shows the list's length: lists of different lengths give different texts. |
| ProjectResourcesView.ProyectosDistinct | frontend-recursos/src/components/resources/ProjectResourcesView.jsx:7-13 | The five project names are pairwise different. |
| ProjectResourcesView.RecursosPorProyecto | frontend-recursos/src/components/resources/ProjectResourcesView.jsx:15-17 | The list is empty with no selection. With a selection, a resource is in it if and only if it is assigned to that project, in the original order and as often as in the list. |
| ProjectResourcesView.StatsFor | frontend-recursos/src/components/resources/ProjectResourcesView.jsx:19-23 | One entry per project name, in the list's order. |
| ProjectResourcesView.StatsEntries | frontend-recursos/src/components/resources/ProjectResourcesView.jsx:20-22 | An entry names its project, and its count is the length of its list. Its list holds exactly the resources assigned to that project. It equals the detail list shown when that project is selected. |
| ProjectResourcesView.HitsAtMostOne | frontend-recursos/src/components/resources/ProjectResourcesView.jsx:21 | A resource is counted under at most one of distinct project names. |
| ProjectResourcesView.SumCountsBounded | frontend-recursos/src/components/resources/ProjectResourcesView.jsx:19-23 | For distinct names, the counts add up to at most the number of resources. |
| ProjectResourcesView.StatsCountsBounded | frontend-recursos/src/components/resources/ProjectResourcesView.jsx:19-23 | The five counts add up to at most `resources.length`. |
| ProjectResourcesView.GetStatusClass | frontend-recursos/src/components/resources/ProjectResourcesView.jsx:25-38 | The class is one of four. It is the assigned, maintenance or holiday class exactly when the lowercased status is 'asignado', 'en mantenimiento' or 'vacaciones'. Every other status gets 'status-disponible'. |
| ProjectResourcesView.StatusClassIgnoresCase | frontend-recursos/src/components/resources/ProjectResourcesView.jsx:26 | The badge does not depend on letter case. |
| ProjectResourcesView.MissingStatusLooksAvailable | frontend-recursos/src/components/resources/ProjectResourcesView.jsx:35-36 | A missing status gets 'status-disponible'. |
| ProjectAssignment.AssignRequest | frontend-recursos/src/components/resources/ProjectAssignment.jsx:18-22 | A PUT to the staff member's URL whose body holds `proyectoAsignado` and nothing else. |
| ProjectAssignment.PersonalDisponible | frontend-recursos/src/components/resources/ProjectAssignment.jsx:34-36 | A resource is offered if and only if its `estado` is "Disponible" or its `proyectoAsignado` is "Sin asignación". The offered ones keep their order and appear as often as in the list. |
| ProjectAssignment.OnApiRowsOnlyStatusCounts | frontend-recursos/src/components/resources/ProjectAssignment.jsx:35 | On a row as recursos-api sends it, only the status decides. |
| ProjectAssignment.ProjectAssignmentState.constructor | frontend-recursos/src/components/resources/ProjectAssignment.jsx:5-8 | Nothing is chosen at first. |
| ProjectAssignment.AssignmentBodyChangesNoRecurso | frontend-recursos/src/components/resources/ProjectAssignment.jsx:21 | If recursos-api read the assignment body as an update, it would change nothing. |
| ProjectAssignment.ProjectAssignmentState.SelectPersonal | frontend-recursos/src/components/resources/ProjectAssignment.jsx:47 | Only the staff choice changes. |
| ProjectAssignment.ProjectAssignmentState.SelectProyecto | frontend-recursos/src/components/resources/ProjectAssignment.jsx:62 | Only the project choice changes. |
| ProjectAssignment.ProjectAssignmentState.HandleAssign | frontend-recursos/src/components/resources/ProjectAssignment.jsx:10-32 | Without both choices it alerts and sends nothing. Otherwise it sends `AssignRequest`: an ok response resets both choices and runs the callback; any other outcome changes nothing. |
| ResourcesDashboard.Stats | frontend-recursos/src/components/resources/ResourcesDashboard.jsx:4-9 | `personalTotal` is the list length and `personalDisponible` is at most that. Both equipment counters are 0. |
| ResourcesDashboard.NoResourcesNoneAvailable | frontend-recursos/src/components/resources/ResourcesDashboard.jsx:6 | With no resources the available counter is 0. |
| ResourcesDashboard.OneMoreResource | frontend-recursos/src/components/resources/ResourcesDashboard.jsx:6 | Adding a resource raises `personalDisponible` by one exactly when its `estado` is exactly 'Disponible'. |
| ResourcesDashboard.AvailableAreOffered | frontend-recursos/src/components/resources/ResourcesDashboard.jsx:6 | The available counter never exceeds the number of staff the assignment screen offers. |
| ResourcesForm.SetField | frontend-recursos/src/components/resources/ResourcesForm.jsx:17-20 | Only the named field changes. |
| ResourcesForm.InitialFormIsIncomplete | frontend-recursos/src/components/resources/ResourcesForm.jsx:7-15 | The empty form cannot be submitted. Its only non-empty field is `proyectoAsignado`. |
| ResourcesForm.FormBody | frontend-recursos/src/components/resources/ResourcesForm.jsx:34 | The body holds the seven camelCase properties and nothing else, each carrying its form field as a string. |
| ResourcesForm.ResourcesApiWouldRefuse | frontend-recursos/src/components/resources/ResourcesForm.jsx:31-35 | recursos-api would refuse the form's body with a 400, because the body has no `nombre_completo`. |
| ResourcesForm.ResourcesFormState.constructor | frontend-recursos/src/components/resources/ResourcesForm.jsx:7-15 | The form starts as the empty resource form. |
| ResourcesForm.ResourcesFormState.HandleChange | frontend-recursos/src/components/resources/ResourcesForm.jsx:17-20 | Only the named field changes. |
| ResourcesForm.ResourcesFormState.HandleSubmit | frontend-recursos/src/components/resources/ResourcesForm.jsx:22-52 | An incomplete form alerts and sends nothing. Otherwise it POSTs the form. An ok response resets the form and runs `onSuccess`. A non-ok response or a rejection keeps the form and does not call it. |
| Text.LowerIdempotent | frontend-documental/src/App.js:39 | Lowercasing twice is lowercasing once. |
| Text.ContainsIff | frontend-documental/src/App.js:39 | `includes` holds exactly when the text occurs at some position. |
| Text.NatToStringInjective | frontend-documental/src/services/documentService.js:35 | Different ids render as different path segments. |
| Store.GetRow | gestion-documental-api/src/app.js:153 | The shared get logic: a 404 exactly when the id is absent and the store works, a 200 with the row exactly when it is present. |
| Store.OrderedRows | gestion-documental-api/src/app.js:137 | `ORDER BY id ASC` returns every row once, by strictly ascending id. |
| Store.ListRows | gestion-documental-api/src/app.js:134-143 | The shared list logic: the 500 "query failed" exactly when the store fails, otherwise the ordered table. |

## Left out

- The Postgres server. A table is a map from id to row. A fresh id is one not already in the table; SERIAL numbering is not modelled. The connection pool (recursos-api/src/db.js) and driver errors are represented by a single `storeFails` flag for the 500 branch.
- The browser's form validation. Both forms mark their required inputs with the HTML `required` attribute (frontend-recursos/src/components/resources/ResourcesForm.jsx:68,74,106 and frontend-documental/src/components/DocumentForm.jsx:137,149,228), and the resources form's email input has `type="email"` (ResourcesForm.jsx:102). In a browser these checks stop the submit before `handleSubmit` runs. The models of `HandleSubmit` start at `handleSubmit`, so their "incomplete form" branch stands for a submit that bypasses the browser check, and `ResourcesForm.ResourcesFormState.HandleSubmit` accepts any email text.
- A non-numeric `:id`. The store would fail casting it, and that message reaches the client as the 500 branch. The model's ids are numbers.
- The `detail` field of error bodies, which carries the text of the driver's exception.
- The ILIKE pattern syntax. The search matches a plain substring, case-insensitively. In the real query a `%` or `_` typed into the search acts as a wildcard. A `\` escapes the character after it, since the backslash is ILIKE's default escape character.
- Repeated query keys. Express parses `?tipo=a&tipo=b` into an array, which is truthy and is then bound or wrapped as something other than a string. The model takes every query value to be a string, `null` or missing.
- Lowercasing. It covers ASCII and Latin-1 letters, not all of Unicode.
- Express plumbing: CORS, preflight, `/health`, `/db/health`, the root banner and `listen`. Also body parsing (a PUT or POST to recursos-api or proyectos-api without a JSON body), URL decoding and trailing slashes.
- The HTTP clients: the axios instance with its token interceptor, and the `fetch` wrappers of recursosService.js. Each call is an outcome parameter.
- What the service at `http://localhost:4000/api/personal` does. It is not part of this model. Only the requests sent to it are modelled.
- The clock. `new Date().toISOString()` is the `today` parameter.
- JSX rendering, `alert`, `console.error` and the text of the confirmation dialog beyond its question.
- Components that only display. Header, DocumentModal and DocumentStats are not modelled; DocumentStats shows fixed numbers. Neither are ResourcesTable's badge, ResourcesFilters (whose state filters nothing) or ResourcesPage's wiring.
- React's asynchronous state updates and stale closures. Each handler sees the state at its start and writes its result at its end.
- Timing in `App`. `loading` is set to true at the start of a load, and the model shows only its end value.
- Number fields in JSON bodies. Only strings, `null` and missing properties are modelled.
- RecursosApi.RecursoJson: the numeric `id` of a row is kept beside the object of columns, not as one of its properties, because number values are not modelled. The resource screens are given only the object, and none of the modelled code reads `id` from it.
- DocumentService.FromRow: the documents table is taken to hold exactly `id` and the six columns the create handler inserts. So no row carries a `fecha`. The schema is not part of this model, and `ListedDocumentsAreDatedToday` rests on the same assumption.
- DocumentsApp.AppState.HandleFilterChange: it uses the corrected search test. As written, a document with a non-string creator whose name does not match throws, and the view keeps what it showed before (see the findings).
- DocumentService.ToDocumento: it uses the corrected `TransformarEstado`. As written, an `Object.prototype` member name as a status comes back as that member (see the findings).
- DocumentService.GetAllDocuments: it renames each document with `ToDocumento`, and so uses the corrected status lookup.
- DocumentService.GetDocumentById: it uses the corrected `TransformarEstado`, like `ToDocumento`.
- The address of the documents service. The client sends to axios's base URL, which is `REACT_APP_API_URL` or `http://localhost:3001/api` (frontend-documental/src/services/apiService.js:5). The service listens on port 4002 and serves `/documents` at its root (gestion-documental-api/src/app.js:23). The call-path lemmas of `DocumentService` assume that `REACT_APP_API_URL` or a gateway maps the base URL onto that root.
- DocumentsApp.Filtered: its ensures says only that the view is no longer than the list. What the view holds is stated by `FilteredMembers`, `FilteredIsSubsequence` and `FilteredIsOneFilter`.

## Findings

| source | as written | input that shows it | evidently intended | confidence | as-written member | corrected member |
|---|---|---|---|---|---|---|
| frontend-documental/src/App.js:38-41 | The search filter calls `doc.creadoPor.toLowerCase()` on every document whose name does not match. The service stores a falsy creator as NULL, so the client receives `creadoPor: null`. | A document named "Acta" with a null creator, searched for "presupuesto". | Skip a field that is not a string, as the table does when it shows `creadoPor \|\| 'No especificado'`. | not executed | DocumentsApp.NullCreatorThrows | DocumentsApp.FilteredMembers |
| frontend-documental/src/services/documentService.js:15 | `estados[estadoIngles] \|\| estadoIngles` looks the status up in a plain object literal, so inherited `Object.prototype` members also match. | A status stored as "constructor", which the documents service accepts on create or update. | Translate only the eight own keys and return any other status unchanged. | not executed | DocumentService.ConstructorStatusIsNotPassedThrough | DocumentService.TransformarEstado |
