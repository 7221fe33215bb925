/** The `App` component of frontend-documental: the loaded document list,
    the filtered view the table shows, and the client-side filter. */
module DocumentsApp {
  import opened Json
  import opened Text
  import opened Options
  import Seqs
  import opened SearchFilters
  import opened DocumentService

  // ---------------------------------------------------------------- the filter

  /** The search test on one field: a string whose lowercase form contains
      the lowercase search text. Any other value does not match. */
  predicate FieldMatches(v: Value, search: string) {
    v.Str? && Contains(Lower(v.s), Lower(search))
  }

  /** The search step as intended: `nombre` or `creadoPor` matches. */
  predicate MatchesSearch(d: Documento, search: string) {
    FieldMatches(d.nombre, search) || FieldMatches(d.creadoPor, search)
  }

  /** What a document must satisfy to stay visible: each non-empty filter
      holds (the search on name or creator, exact type, exact project). */
  predicate Visible(d: Documento, f: Filters) {
    && (f.search != "" ==> MatchesSearch(d, f.search))
    && (f.tipo != "" ==> d.tipo == Str(f.tipo))
    && (f.proyecto != "" ==> d.proyecto == Str(f.proyecto))
  }

  /** The three steps of `handleFilterChange` as the callbacks passed to `filter`. */
  function SearchStep(search: string): Documento -> bool {
    (d: Documento) => MatchesSearch(d, search)
  }

  function TipoStep(tipo: string): Documento -> bool {
    (d: Documento) => d.tipo == Str(tipo)
  }

  function ProyectoStep(proyecto: string): Documento -> bool {
    (d: Documento) => d.proyecto == Str(proyecto)
  }

  /** `handleFilterChange`'s derivation: start from the full list and apply
      one `filter` per non-empty filter, in the order search, type, project. */
  function Filtered(documents: seq<Documento>, f: Filters): (r: seq<Documento>)
    ensures |r| <= |documents|
  {
    var afterSearch := if f.search != "" then Seqs.Filter(documents, SearchStep(f.search)) else documents;
    var afterTipo := if f.tipo != "" then Seqs.Filter(afterSearch, TipoStep(f.tipo)) else afterSearch;
    if f.proyecto != "" then Seqs.Filter(afterTipo, ProyectoStep(f.proyecto)) else afterTipo
  }

  /** `Visible` as a test to filter by. */
  function VisibleStep(f: Filters): Documento -> bool {
    (d: Documento) => Visible(d, f)
  }

  /** The three steps are one filter by the conjunction. */
  lemma FilteredIsOneFilter(documents: seq<Documento>, f: Filters)
    ensures Filtered(documents, f) == Seqs.Filter(documents, VisibleStep(f))
  {
    var ps, pt, pp := SearchStep(f.search), TipoStep(f.tipo), ProyectoStep(f.proyecto);
    Seqs.FilterSteps(documents, f.search != "", ps, f.tipo != "", pt, f.proyecto != "", pp);
    var all := Seqs.And(Seqs.And(Seqs.When(f.search != "", ps), Seqs.When(f.tipo != "", pt)), Seqs.When(f.proyecto != "", pp));
    Seqs.FilterCongruent(documents, all, VisibleStep(f));
  }

  /** A document is visible exactly when it is in the list and passes every
      non-empty filter; the view keeps the list's order. */
  lemma FilteredMembers(documents: seq<Documento>, f: Filters, d: Documento)
    ensures d in Filtered(documents, f) <==> d in documents && Visible(d, f)
  {
    FilteredIsOneFilter(documents, f);
  }

  /** The view is an order-preserving subsequence of the full list. */
  lemma FilteredIsSubsequence(documents: seq<Documento>, f: Filters)
    ensures Seqs.IsSubsequence(Filtered(documents, f), documents)
  {
    FilteredIsOneFilter(documents, f);
    Seqs.FilterIsSubsequence(documents, VisibleStep(f));
  }

  /** With all filters empty the view is the whole list. */
  lemma {:induction false} NoFiltersShowAll(documents: seq<Documento>)
    ensures Filtered(documents, Initial) == documents
  {
  }

  /** With only a search, a document stays exactly when its lowercase name
      or lowercase creator contains the lowercase search text. */
  lemma SearchOnly(documents: seq<Documento>, search: string, d: Documento)
    requires search != ""
    ensures d in Filtered(documents, Filters(search, "", "")) <==>
              d in documents && (FieldMatches(d.nombre, search) || FieldMatches(d.creadoPor, search))
  {
    FilteredMembers(documents, Filters(search, "", ""), d);
  }

  /** The order of the steps does not matter: when both a search and a
      type are set, filtering by the type first and by the search after,
      then by the project if one is set, gives the same view. */
  lemma StepsCommute(documents: seq<Documento>, f: Filters)
    requires f.search != "" && f.tipo != ""
    ensures var typeFirst := Seqs.Filter(Seqs.Filter(documents, TipoStep(f.tipo)), SearchStep(f.search));
            (if f.proyecto != "" then Seqs.Filter(typeFirst, ProyectoStep(f.proyecto)) else typeFirst) == Filtered(documents, f)
  {
    Seqs.FilterCommute(documents, TipoStep(f.tipo), SearchStep(f.search));
  }

  // ---------------------------------------------------------------- the filter as written

  /** `doc.nombre.toLowerCase()`: a TypeError (none) unless the field is a string. */
  function LowerField(v: Value): (r: Option<string>)
    ensures r.Some? <==> v.Str?
    ensures v.Str? ==> r == Some(Lower(v.s))
  {
    if v.Str? then Some(Lower(v.s)) else None
  }

  /** The search test exactly as written: `creadoPor` is read only when the
      name does not match (`||` short-circuits), and a non-string field read
      throws (none). */
  function MatchesSearchAsWritten(d: Documento, search: string): (r: Option<bool>)
    ensures r.None? <==> !d.nombre.Str? || (!FieldMatches(d.nombre, search) && !d.creadoPor.Str?)
  {
    match LowerField(d.nombre)
    case None => None
    case Some(n) =>
      if Contains(n, Lower(search)) then Some(true)
      else match LowerField(d.creadoPor)
        case None => None
        case Some(c) => Some(Contains(c, Lower(search)))
  }

  /** Where the written test does not throw it agrees with the intended one. */
  lemma AsWrittenAgreesWhenDefined(d: Documento, search: string)
    requires MatchesSearchAsWritten(d, search).Some?
    ensures MatchesSearchAsWritten(d, search) == Some(MatchesSearch(d, search))
  {
  }

  /** A document stored without a creator (`created_by || null` on create)
      arrives with `creadoPor: null`; a search its name does not contain
      then throws inside `handleFilterChange`, so the view is never updated. */
  lemma NullCreatorThrows()
    ensures var d := Documento(1, Str("Acta"), Str("Acta"), Str("Proyecto Alpha"), Null, Str("Borrador"), Null, Str("2024-01-01"));
            MatchesSearchAsWritten(d, "presupuesto").None? && !MatchesSearch(d, "presupuesto")
  {
    assert |Lower("presupuesto")| > |Lower("Acta")|;
  }

  // ---------------------------------------------------------------- the component

  /** The component state: the loaded list, the view the table shows, and
      the loading flag. */
  class AppState {
    var documents: seq<Documento>
    var filteredDocuments: seq<Documento>
    var loading: bool

    constructor ()
      ensures documents == [] && filteredDocuments == [] && loading
    {
      documents := [];
      filteredDocuments := [];
      loading := true;
    }

    /** `loadDocuments`. `response` is what `getAllDocuments` yields: the
        API's list, or none when the request fails; `today` is the clock's date. */
    method LoadDocuments(response: Option<seq<ApiDocument>>, today: string)
      modifies this
      ensures response.Some? ==> documents == GetAllDocuments(response.value, today)
      ensures response.Some? ==> filteredDocuments == documents
      ensures response.None? ==> documents == old(documents) && filteredDocuments == old(filteredDocuments)
      ensures !loading
    {
      loading := true;
      if response.Some? {
        var data := GetAllDocuments(response.value, today);
        documents := data;
        filteredDocuments := data;
      }
      loading := false;
    }

    /** `handleFilterChange`: the view is recomputed from the full list,
        whatever it showed before. */
    method HandleFilterChange(newFilters: Filters)
      modifies this
      ensures filteredDocuments == Filtered(documents, newFilters)
      ensures documents == old(documents) && loading == old(loading)
    {
      var filtered := documents;
      if newFilters.search != "" {
        filtered := Seqs.Filter(filtered, SearchStep(newFilters.search));
      }
      if newFilters.tipo != "" {
        filtered := Seqs.Filter(filtered, TipoStep(newFilters.tipo));
      }
      if newFilters.proyecto != "" {
        filtered := Seqs.Filter(filtered, ProyectoStep(newFilters.proyecto));
      }
      filteredDocuments := filtered;
    }

    /** `handleDocumentCreated` and `handleDocumentUpdate`: a full reload. */
    method HandleDocumentChanged(response: Option<seq<ApiDocument>>, today: string)
      modifies this
      ensures response.Some? ==> documents == GetAllDocuments(response.value, today) && filteredDocuments == documents
      ensures response.None? ==> documents == old(documents) && filteredDocuments == old(filteredDocuments)
      ensures !loading
    {
      LoadDocuments(response, today);
    }
  }

  /** Narrowing and then widening the filters gives the view of the wide
      filters alone: each change starts from the full list. */
  method NarrowThenWiden(app: AppState, narrow: Filters, wide: Filters)
    modifies app
    ensures app.filteredDocuments == Filtered(old(app.documents), wide)
    ensures app.documents == old(app.documents)
  {
    app.HandleFilterChange(narrow);
    app.HandleFilterChange(wide);
  }
}
