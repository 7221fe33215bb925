/** GET `/documents/search` of gestion-documental-api: the SQL text and
    parameter list grown one criterion at a time, and the rows that query
    selects. */
module DocumentsSearch {
  import opened Json
  import opened Store
  import opened Text
  import Seqs
  import opened DocumentsApi

  /** One active criterion of the search. */
  datatype Criterion =
    | NameOrCreator(search: string) // `search`: name or created_by, case-insensitive substring
    | TypeIs(docType: string)       // `type`: exact match
    | ProjectIs(project: string)    // `project`: exact match

  /** The criteria a query string activates: each truthy one, in the order
      search, type, project. */
  function Criteria(search: Value, docType: Value, project: Value): (cs: seq<Criterion>)
    // one criterion per truthy value
    ensures |cs| == Count(search) + Count(docType) + Count(project)
  {
    Opt(search, 0) + Opt(docType, 1) + Opt(project, 2)
  }

  /** The criterion of rank `rank` on a truthy value, none otherwise. */
  function Opt(v: Value, rank: nat): (cs: seq<Criterion>)
    requires rank <= 2
    ensures |cs| == Count(v)
    ensures forall c :: c in cs ==> Rank(c) == rank
  {
    if !Truthy(v) then []
    else if rank == 0 then [NameOrCreator(v.s)]
    else if rank == 1 then [TypeIs(v.s)]
    else [ProjectIs(v.s)]
  }

  /** A criterion is active exactly when its query value is truthy, and it
      carries that value. */
  lemma CriteriaMembers(search: Value, docType: Value, project: Value, c: Criterion)
    ensures c in Criteria(search, docType, project) <==>
              || (Truthy(search) && c == NameOrCreator(search.s))
              || (Truthy(docType) && c == TypeIs(docType.s))
              || (Truthy(project) && c == ProjectIs(project.s))
  {
    var a, b, p := Opt(search, 0), Opt(docType, 1), Opt(project, 2);
    assert c in a + b + p <==> c in a || c in b || c in p;
  }

  /** Active criteria come in the handler's order: search, type, project. */
  lemma CriteriaOrder(search: Value, docType: Value, project: Value)
    ensures var cs := Criteria(search, docType, project);
            forall i, j :: 0 <= i < j < |cs| ==> Rank(cs[i]) < Rank(cs[j])
  {
    var a, b, p := Opt(search, 0), Opt(docType, 1), Opt(project, 2);
    var cs := a + b + p;
    forall i, j | 0 <= i < j < |cs|
      ensures Rank(cs[i]) < Rank(cs[j])
    {
      assert cs[i] in (if i < |a| then a else if i < |a| + |b| then b else p);
      assert cs[j] in (if j < |a| then a else if j < |a| + |b| then b else p);
    }
  }

  /** 1 for a truthy value, 0 otherwise. */
  function Count(v: Value): nat {
    if Truthy(v) then 1 else 0
  }

  /** The position of a criterion's test in the handler. */
  function Rank(c: Criterion): nat {
    match c
    case NameOrCreator(_) => 0
    case TypeIs(_) => 1
    case ProjectIs(_) => 2
  }

  const SelectAll := "SELECT * FROM gestion_schema.documents WHERE 1=1"
  const OrderById := " ORDER BY id ASC"

  /** The `AND` clause a criterion adds when it binds parameter `$n`. */
  function Clause(c: Criterion, n: nat): string {
    match c
    case NameOrCreator(_) => " AND (name ILIKE $" + NatToString(n) + " OR created_by ILIKE $" + NatToString(n) + ")"
    case TypeIs(_) => " AND type = $" + NatToString(n)
    case ProjectIs(_) => " AND project = $" + NatToString(n)
  }

  /** The parameter a criterion binds: the search text wrapped as `%s%`,
      the others as given. */
  function ParamOf(c: Criterion): string {
    match c
    case NameOrCreator(s) => "%" + s + "%"
    case TypeIs(t) => t
    case ProjectIs(p) => p
  }

  /** The clauses of the criteria, numbered consecutively from `first`. */
  function Clauses(cs: seq<Criterion>, first: nat): string {
    Numbered(ClauseStep(), cs, first)
  }

  function ClauseStep(): (Criterion, nat) -> string {
    (c: Criterion, n: nat) => Clause(c, n)
  }

  /** The texts `f` gives the elements, numbered consecutively from `first`,
      one after the other. */
  function Numbered(f: (Criterion, nat) -> string, cs: seq<Criterion>, first: nat): string
    decreases |cs|
  {
    if cs == [] then "" else f(cs[0], first) + Numbered(f, cs[1..], first + 1)
  }

  /** The parameters of the criteria, in order. */
  function ParamsOf(cs: seq<Criterion>): (ps: seq<string>)
    ensures |ps| == |cs|
  {
    if cs == [] then [] else [ParamOf(cs[0])] + ParamsOf(cs[1..])
  }

  /** Parameter `$i+1` is the one the `i`-th criterion binds. */
  lemma {:induction false} ParamsOfAt(cs: seq<Criterion>, i: nat)
    requires i < |cs|
    ensures ParamsOf(cs)[i] == ParamOf(cs[i])
    decreases |cs|
  {
    if i > 0 {
      ParamsOfAt(cs[1..], i - 1);
    }
  }

  lemma {:induction false} ParamsOfAppend(cs: seq<Criterion>, c: Criterion)
    ensures ParamsOf(cs + [c]) == ParamsOf(cs) + [ParamOf(c)]
    decreases |cs|
  {
    if cs == [] {
      assert [c][1..] == [];
    } else {
      assert (cs + [c])[1..] == cs[1..] + [c];
      ParamsOfAppend(cs[1..], c);
    }
  }

  /** Adding an element at the end adds its text with the next number. */
  lemma {:induction false} NumberedAppend(f: (Criterion, nat) -> string, cs: seq<Criterion>, c: Criterion, first: nat)
    ensures Numbered(f, cs + [c], first) == Numbered(f, cs, first) + f(c, first + |cs|)
    decreases |cs|
  {
    if cs == [] {
      assert [c][1..] == [];
    } else {
      assert (cs + [c])[0] == cs[0] && (cs + [c])[1..] == cs[1..] + [c];
      NumberedAppend(f, cs[1..], c, first + 1);
      Seqs.AppendAssociative(f(cs[0], first), Numbered(f, cs[1..], first + 1), f(c, first + |cs|));
    }
  }

  /** Adding a criterion at the end adds its clause with the next number. */
  lemma ClausesAppend(cs: seq<Criterion>, c: Criterion, first: nat)
    ensures Clauses(cs + [c], first) == Clauses(cs, first) + Clause(c, first + |cs|)
  {
    NumberedAppend(ClauseStep(), cs, c, first);
  }

  /** The SQL text and parameters the handler builds: one clause and one
      parameter per truthy criterion, placeholders `$1`, `$2`, ... in the
      order search, type, project, and the result ordered by id. */
  method BuildQuery(search: Value, docType: Value, project: Value)
    returns (query: string, params: seq<string>, paramCount: nat)
    ensures paramCount == |params| == |Criteria(search, docType, project)|
    ensures params == ParamsOf(Criteria(search, docType, project))
    ensures query == SelectAll + Clauses(Criteria(search, docType, project), 1) + OrderById
  {
    ghost var added: seq<Criterion> := [];
    query := SelectAll;
    params := [];
    paramCount := 0;
    assert Built(query, params, paramCount, added);

    if Truthy(search) {
      query, params, paramCount := AddCriterion(query, params, paramCount, added, NameOrCreator(search.s));
      added := added + [NameOrCreator(search.s)];
    }
    assert added == Opt(search, 0);
    if Truthy(docType) {
      query, params, paramCount := AddCriterion(query, params, paramCount, added, TypeIs(docType.s));
      added := added + [TypeIs(docType.s)];
    }
    assert added == Opt(search, 0) + Opt(docType, 1);
    if Truthy(project) {
      query, params, paramCount := AddCriterion(query, params, paramCount, added, ProjectIs(project.s));
      added := added + [ProjectIs(project.s)];
    }
    assert added == Criteria(search, docType, project);

    query := query + OrderById;
  }

  /** One `if` of the builder: bump the counter, append the criterion's
      clause numbered by it, and push the criterion's parameter. */
  method AddCriterion(query: string, params: seq<string>, paramCount: nat, ghost added: seq<Criterion>, c: Criterion)
    returns (query': string, params': seq<string>, paramCount': nat)
    requires Built(query, params, paramCount, added)
    ensures Built(query', params', paramCount', added + [c])
  {
    paramCount' := paramCount + 1;
    query' := query + Clause(c, paramCount');
    params' := params + [ParamOf(c)];
    Step(query, params, added, c, query', params');
  }

  /** The text and parameters built so far are those of the criteria `added`. */
  predicate Built(query: string, params: seq<string>, paramCount: nat, added: seq<Criterion>) {
    && query == SelectAll + Clauses(added, 1)
    && params == ParamsOf(added)
    && paramCount == |added|
  }

  /** One step of the builder: appending a criterion's clause, numbered by
      the incremented counter, and its parameter keeps `Built`. */
  lemma Step(query: string, params: seq<string>, added: seq<Criterion>, c: Criterion,
             query': string, params': seq<string>)
    requires Built(query, params, |params|, added)
    requires query' == query + Clause(c, |params| + 1)
    requires params' == params + [ParamOf(c)]
    ensures Built(query', params', |params'|, added + [c])
  {
    ClausesAppend(added, c, 1);
    ParamsOfAppend(added, c);
    assert |params| == |added|;
    Seqs.AppendAssociative(SelectAll, Clauses(added, 1), Clause(c, 1 + |added|));
  }

  /** What a criterion asks of a row. ILIKE has Postgres return NULL, hence
      no match, on a NULL column. */
  predicate Satisfies(d: Document, c: Criterion) {
    match c
    case NameOrCreator(s) =>
      (d.name.Txt? && Contains(Lower(d.name.t), Lower(s)))
      || (d.createdBy.Txt? && Contains(Lower(d.createdBy.t), Lower(s)))
    case TypeIs(t) => d.docType == Txt(t)
    case ProjectIs(p) => d.project == Txt(p)
  }

  /** A row satisfies every criterion of the list. */
  predicate SatisfiesAll(d: Document, cs: seq<Criterion>) {
    forall c :: c in cs ==> Satisfies(d, c)
  }

  /** The test the built query applies to a row. */
  function MatchStep(cs: seq<Criterion>): Row<Document> -> bool {
    (x: Row<Document>) => SatisfiesAll(x.data, cs)
  }

  /** The rows the built query selects, in the order it selects them. */
  function Selected(rows: Table<Document>, cs: seq<Criterion>): (r: seq<Row<Document>>)
    ensures forall x :: x in r <==> x in OrderedRows(rows) && SatisfiesAll(x.data, cs)
  {
    Seqs.Filter(OrderedRows(rows), MatchStep(cs))
  }

  /** The selection keeps the list's order: a subsequence of it, by
      strictly ascending id. */
  lemma SelectedInOrder(rows: Table<Document>, cs: seq<Criterion>)
    ensures Seqs.IsSubsequence(Selected(rows, cs), OrderedRows(rows))
    ensures StrictlyAscending(Selected(rows, cs))
  {
    var all := OrderedRows(rows);
    Seqs.FilterIsSubsequence(all, MatchStep(cs));
    Seqs.FilterKeepsOrder(all, MatchStep(cs), (a: Row<Document>, b: Row<Document>) => a.id < b.id);
  }

  /** Without criteria the search returns the whole list. */
  lemma NoCriteriaSelectsAll(rows: Table<Document>)
    ensures Selected(rows, Criteria(Undefined, Undefined, Undefined)) == OrderedRows(rows)
  {
    Seqs.FilterAll(OrderedRows(rows), MatchStep([]));
  }

  /** The whole handler: build the query, then run it. */
  method Search(rows: Table<Document>, search: Value, docType: Value, project: Value, storeFails: bool)
    returns (resp: Response<seq<Row<Document>>>)
    ensures storeFails ==> resp == ServerError("search failed")
    ensures !storeFails ==> resp == Ok(Selected(rows, Criteria(search, docType, project)))
  {
    var query, params, paramCount := BuildQuery(search, docType, project);
    if storeFails {
      return ServerError("search failed");
    }
    resp := Ok(Selected(rows, Criteria(search, docType, project)));
  }
}
