/** Route registration of gestion-documental-api: Express tries the routes
    in the order they were registered and runs the first one whose verb and
    path pattern match the request. */
module DocumentsRoutes {
  import opened Text
  import opened Options

  datatype Verb = Get | Post | Put | Delete

  /** One `/`-separated piece of a route pattern: a fixed word, or a named
      parameter such as `:id`, which matches any non-empty segment. */
  datatype Segment = Lit(word: string) | Param

  datatype Handler =
    | CreateDocument | DocumentStats | SearchDocuments | ListDocuments
    | GetDocument | UpdateDocument | DeleteDocument

  datatype Route = Route(verb: Verb, pattern: seq<Segment>, handler: Handler)

  /** The `/documents` routes in registration order. */
  const Registered: seq<Route> := [
    Route(Post, [Lit("documents")], CreateDocument),
    Route(Get, [Lit("documents"), Lit("stats")], DocumentStats),
    Route(Get, [Lit("documents"), Lit("search")], SearchDocuments),
    Route(Get, [Lit("documents")], ListDocuments),
    Route(Get, [Lit("documents"), Param], GetDocument),
    Route(Put, [Lit("documents"), Param], UpdateDocument),
    Route(Delete, [Lit("documents"), Param], DeleteDocument)
  ]

  /** Express matches fixed words without regard to case. */
  predicate SegmentMatches(p: Segment, s: string) {
    match p
    case Lit(w) => Lower(s) == Lower(w)
    case Param => s != ""
  }

  predicate Matches(r: Route, verb: Verb, path: seq<string>) {
    && r.verb == verb
    && |r.pattern| == |path|
    && forall k :: 0 <= k < |path| ==> SegmentMatches(r.pattern[k], path[k])
  }

  /** The index of the first route, from `from` on, that matches. */
  function FirstMatchFrom(routes: seq<Route>, verb: Verb, path: seq<string>, from: nat): (r: Option<nat>)
    requires from <= |routes|
    ensures r.Some? ==> from <= r.value < |routes| && Matches(routes[r.value], verb, path)
    ensures r.Some? ==> forall j :: from <= j < r.value ==> !Matches(routes[j], verb, path)
    ensures r.None? ==> forall j :: from <= j < |routes| ==> !Matches(routes[j], verb, path)
    decreases |routes| - from
  {
    if from == |routes| then None
    else if Matches(routes[from], verb, path) then Some(from)
    else FirstMatchFrom(routes, verb, path, from + 1)
  }

  /** The index of the first matching route: that route matches and no
      earlier one does; none when no route matches. */
  function FirstMatch(routes: seq<Route>, verb: Verb, path: seq<string>): (r: Option<nat>)
    ensures r.Some? ==> r.value < |routes| && Matches(routes[r.value], verb, path)
    ensures r.Some? ==> forall j :: 0 <= j < r.value ==> !Matches(routes[j], verb, path)
    ensures r.None? <==> forall j :: 0 <= j < |routes| ==> !Matches(routes[j], verb, path)
  {
    FirstMatchFrom(routes, verb, path, 0)
  }

  /** The path segments bound to the pattern's parameters, in order. */
  function Bound(pattern: seq<Segment>, path: seq<string>): (ps: seq<string>)
    requires |pattern| == |path|
    ensures |ps| <= |path|
  {
    if pattern == [] then []
    else (if pattern[0].Param? then [path[0]] else []) + Bound(pattern[1..], path[1..])
  }

  datatype Dispatched = Dispatched(handler: Handler, params: seq<string>)

  /** The handler Express runs for a request, with the values of its path
      parameters; none (Express's own 404) when no route matches. */
  function Dispatch(routes: seq<Route>, verb: Verb, path: seq<string>): (d: Option<Dispatched>)
    ensures d.None? <==> forall j :: 0 <= j < |routes| ==> !Matches(routes[j], verb, path)
    ensures d.Some? ==> exists j :: 0 <= j < |routes| && Matches(routes[j], verb, path) && routes[j].handler == d.value.handler
  {
    match FirstMatch(routes, verb, path)
    case None => None
    case Some(j) => Some(Dispatched(routes[j].handler, Bound(routes[j].pattern, path)))
  }

  /** The one parameter of `/documents/:id` binds the id segment. */
  lemma BoundId(id: string)
    ensures Bound([Lit("documents"), Param], ["documents", id]) == [id]
  {
    assert [Lit("documents"), Param][1..] == [Param];
    assert ["documents", id][1..] == [id];
    assert [Param][1..] == [];
    assert [id][1..] == [];
  }

  /** `FirstMatch` picks route `j` when it matches and routes `0..j-1` do not. */
  lemma FirstMatchIs(routes: seq<Route>, verb: Verb, path: seq<string>, j: nat)
    requires j < |routes| && Matches(routes[j], verb, path)
    requires forall i :: 0 <= i < j ==> !Matches(routes[i], verb, path)
    ensures FirstMatch(routes, verb, path) == Some(j)
  {
  }

  /** `GET /documents/stats` reaches the stats handler, not `/documents/:id`. */
  lemma StatsReachesStats()
    ensures Dispatch(Registered, Get, ["documents", "stats"]) == Some(Dispatched(DocumentStats, []))
  {
    var path := ["documents", "stats"];
    assert Matches(Registered[1], Get, path);
    FirstMatchIs(Registered, Get, path, 1);
  }

  /** `GET /documents/search` reaches the search handler. */
  lemma SearchReachesSearch()
    ensures Dispatch(Registered, Get, ["documents", "search"]) == Some(Dispatched(SearchDocuments, []))
  {
    var path := ["documents", "search"];
    assert Lower("search")[1] == 'e' && Lower("stats")[1] == 't';
    assert !SegmentMatches(Registered[1].pattern[1], path[1]);
    assert Matches(Registered[2], Get, path);
    FirstMatchIs(Registered, Get, path, 2);
  }

  /** Any other non-empty id segment reaches `GET /documents/:id` with that id. */
  lemma OtherIdReachesGet(id: string)
    requires id != "" && Lower(id) != Lower("stats") && Lower(id) != Lower("search")
    ensures Dispatch(Registered, Get, ["documents", id]) == Some(Dispatched(GetDocument, [id]))
  {
    var path := ["documents", id];
    assert !SegmentMatches(Registered[1].pattern[1], path[1]);
    assert !SegmentMatches(Registered[2].pattern[1], path[1]);
    assert Matches(Registered[4], Get, path);
    FirstMatchIs(Registered, Get, path, 4);
    BoundId(id);
  }

  /** PUT and DELETE have no fixed sub-paths: every non-empty id, even
      `stats`, reaches the `:id` handler. */
  lemma PutAndDeleteTakeAnyId(id: string)
    requires id != ""
    ensures Dispatch(Registered, Put, ["documents", id]) == Some(Dispatched(UpdateDocument, [id]))
    ensures Dispatch(Registered, Delete, ["documents", id]) == Some(Dispatched(DeleteDocument, [id]))
  {
    var path := ["documents", id];
    assert Matches(Registered[5], Put, path);
    FirstMatchIs(Registered, Put, path, 5);
    assert Matches(Registered[6], Delete, path);
    FirstMatchIs(Registered, Delete, path, 6);
    BoundId(id);
  }

  /** Route `a` matches every request route `b` matches: same verb and
      length, and each segment of `a` is a parameter or the same word. */
  predicate Subsumes(a: Route, b: Route) {
    && a.verb == b.verb
    && |a.pattern| == |b.pattern|
    && forall k :: 0 <= k < |a.pattern| ==>
         a.pattern[k] == b.pattern[k] || (a.pattern[k].Param? && b.pattern[k] != Lit(""))
  }

  /** A route registered after one that subsumes it is never run: this is
      why `/documents/stats` and `/documents/search` are registered before
      `/documents/:id`. */
  lemma {:induction false} ShadowedNeverRuns(routes: seq<Route>, i: nat, j: nat, verb: Verb, path: seq<string>)
    requires i < j < |routes| && Subsumes(routes[i], routes[j])
    ensures FirstMatch(routes, verb, path) != Some(j)
  {
    if Matches(routes[j], verb, path) {
      forall k | 0 <= k < |path|
        ensures SegmentMatches(routes[i].pattern[k], path[k])
      {
        assert SegmentMatches(routes[j].pattern[k], path[k]);
        if routes[i].pattern[k] != routes[j].pattern[k] {
          match routes[j].pattern[k]
          case Lit(w) =>
            assert |Lower(path[k])| == |Lower(w)| && w != "";
          case Param =>
        }
      }
      assert Matches(routes[i], verb, path);
    }
  }

  /** The order the comment at the stats handler warns against: with
      `/documents/:id` first, `GET /documents/stats` runs the get-by-id
      handler with id "stats". */
  lemma IdFirstShadowsStats()
    ensures var idFirst := [Registered[4], Registered[1], Registered[2], Registered[3]];
            Dispatch(idFirst, Get, ["documents", "stats"]) == Some(Dispatched(GetDocument, ["stats"]))
  {
    var idFirst := [Registered[4], Registered[1], Registered[2], Registered[3]];
    var path := ["documents", "stats"];
    assert Matches(idFirst[0], Get, path);
    FirstMatchIs(idFirst, Get, path, 0);
    BoundId("stats");
  }
}
