/** The `ProjectResourcesView` component of frontend-recursos: the staff of
    the selected project, the per-project counts and the status badge. The
    resources are the rows as the resources API sends them, so the project
    is read from `proyecto_asignado`. */
module ProjectResourcesView {
  import opened Json
  import opened Text
  import Seqs

  /** The fixed project names of the view. */
  const Proyectos: seq<string> := [
    "Proyecto Alpha", "Proyecto Beta", "Proyecto Gamma", "Proyecto Delta", "Sin asignación"]

  /** The names of a list are pairwise different. */
  predicate Distinct(names: seq<string>) {
    forall i, j :: 0 <= i < j < |names| ==> names[i] != names[j]
  }

  /** The five names are different, so no resource is counted twice. */
  lemma ProyectosDistinct()
    ensures Distinct(Proyectos)
  {
    forall i, j | 0 <= i < j < |Proyectos|
      ensures Proyectos[i] != Proyectos[j]
    {
      assert Proyectos[i][9] != Proyectos[j][9];
    }
  }

  /** `p => p.proyecto_asignado === proyecto`. */
  predicate AssignedTo(r: JsObject, proyecto: string) {
    Prop(r, "proyecto_asignado") == Str(proyecto)
  }

  function AssignedStep(proyecto: string): JsObject -> bool {
    (r: JsObject) => AssignedTo(r, proyecto)
  }

  /** `recursosPorProyecto`: nothing until a project is selected, then the
      resources assigned to it. */
  function RecursosPorProyecto(resources: seq<JsObject>, selected: string): (r: seq<JsObject>)
    ensures selected == "" ==> r == []
    ensures selected != "" ==> forall x :: x in r <==> x in resources && AssignedTo(x, selected)
    ensures selected != "" ==> Seqs.IsSubsequence(r, resources)
    ensures selected != "" ==> forall x :: multiset(r)[x] == if AssignedTo(x, selected) then multiset(resources)[x] else 0
  {
    if selected == "" then []
    else
      Seqs.FilterIsSubsequence(resources, AssignedStep(selected));
      Seqs.FilterMultiplicity(resources, AssignedStep(selected));
      Seqs.Filter(resources, AssignedStep(selected))
  }

  /** One element of `statsPorProyecto`. */
  datatype ProjectStat = ProjectStat(nombre: string, count: nat, recursos: seq<JsObject>)

  /** The entry of one project name. */
  function StatFor(resources: seq<JsObject>, proyecto: string): ProjectStat {
    var matching := Seqs.Filter(resources, AssignedStep(proyecto));
    ProjectStat(proyecto, |matching|, matching)
  }

  /** `statsPorProyecto`: one entry per name of the list, in its order. */
  function StatsFor(resources: seq<JsObject>, names: seq<string>): (stats: seq<ProjectStat>)
    ensures |stats| == |names|
    ensures forall i :: 0 <= i < |names| ==> stats[i] == StatFor(resources, names[i])
  {
    seq(|names|, i requires 0 <= i < |names| => StatFor(resources, names[i]))
  }

  function StatsPorProyecto(resources: seq<JsObject>): seq<ProjectStat> {
    StatsFor(resources, Proyectos)
  }

  /** Each entry names its project, counts exactly its list, lists exactly
      the resources assigned to it, and agrees with the detail list shown
      when that project is selected. */
  lemma StatsEntries(resources: seq<JsObject>, i: nat)
    requires i < |Proyectos|
    ensures |StatsPorProyecto(resources)| == |Proyectos|
    ensures var st := StatsPorProyecto(resources)[i];
            && st.nombre == Proyectos[i]
            && st.count == |st.recursos|
            && (forall x :: x in st.recursos <==> x in resources && AssignedTo(x, Proyectos[i]))
            && st.recursos == RecursosPorProyecto(resources, Proyectos[i])
  {
    assert Proyectos[i] != "" by {
      assert |Proyectos[i]| >= 13;
    }
  }

  /** The sum of the counts of a list of entries. */
  function SumCounts(stats: seq<ProjectStat>): nat {
    if stats == [] then 0 else stats[0].count + SumCounts(stats[1..])
  }

  /** How many of the names a resource is assigned to. */
  function Hits(r: JsObject, names: seq<string>): nat {
    if names == [] then 0 else (if AssignedTo(r, names[0]) then 1 else 0) + Hits(r, names[1..])
  }

  /** A resource assigned to none of the names hits none. */
  lemma {:induction false} NoHits(r: JsObject, names: seq<string>)
    requires forall j :: 0 <= j < |names| ==> !AssignedTo(r, names[j])
    ensures Hits(r, names) == 0
    decreases |names|
  {
    if names != [] {
      NoHits(r, names[1..]);
    }
  }

  /** A resource has one project, so it hits at most one of distinct names. */
  lemma {:induction false} HitsAtMostOne(r: JsObject, names: seq<string>)
    requires Distinct(names)
    ensures Hits(r, names) <= 1
    decreases |names|
  {
    if names != [] {
      if AssignedTo(r, names[0]) {
        forall j | 0 <= j < |names[1..]|
          ensures !AssignedTo(r, names[1..][j])
        {
          assert names[1..][j] == names[j + 1] != names[0];
        }
        NoHits(r, names[1..]);
      } else {
        HitsAtMostOne(r, names[1..]);
      }
    }
  }

  /** Taking the first resource off the list lowers the sum by its hits. */
  lemma {:induction false} SumCountsFirst(resources: seq<JsObject>, names: seq<string>)
    requires resources != []
    ensures SumCounts(StatsFor(resources, names)) == SumCounts(StatsFor(resources[1..], names)) + Hits(resources[0], names)
    decreases |names|
  {
    if names != [] {
      var all, rest := StatsFor(resources, names), StatsFor(resources[1..], names);
      assert all[1..] == StatsFor(resources, names[1..]);
      assert rest[1..] == StatsFor(resources[1..], names[1..]);
      SumCountsFirst(resources, names[1..]);
    }
  }

  /** With distinct names the counts add up to at most the number of
      resources. */
  lemma {:induction false} SumCountsBounded(resources: seq<JsObject>, names: seq<string>)
    requires Distinct(names)
    ensures SumCounts(StatsFor(resources, names)) <= |resources|
    decreases |resources|
  {
    if resources == [] {
      NoHitsOnEmpty(names);
    } else {
      SumCountsFirst(resources, names);
      HitsAtMostOne(resources[0], names);
      SumCountsBounded(resources[1..], names);
    }
  }

  /** Over no resources every count is zero. */
  lemma {:induction false} NoHitsOnEmpty(names: seq<string>)
    ensures SumCounts(StatsFor([], names)) == 0
    decreases |names|
  {
    if names != [] {
      assert StatsFor([], names)[1..] == StatsFor([], names[1..]);
      NoHitsOnEmpty(names[1..]);
    }
  }

  /** The counts of the five projects add up to at most the number of
      resources. */
  lemma StatsCountsBounded(resources: seq<JsObject>)
    ensures SumCounts(StatsPorProyecto(resources)) <= |resources|
  {
    ProyectosDistinct();
    SumCountsBounded(resources, Proyectos);
  }

  // ---------------------------------------------------------------- status badge

  const AvailableClass := "status-disponible"
  const AssignedClass := "status-asignado"
  const MaintenanceClass := "status-mantenimiento"
  const HolidayClass := "status-vacaciones"

  /** `getStatusClass`: the switch on `estado?.toLowerCase()`; a missing and
      an unknown status fall to the default 'status-disponible'. */
  function GetStatusClass(estado: Value): (c: string)
    ensures c in {AvailableClass, AssignedClass, MaintenanceClass, HolidayClass}
    ensures estado.Str? && Lower(estado.s) == "asignado" <==> c == AssignedClass
    ensures estado.Str? && Lower(estado.s) == "en mantenimiento" <==> c == MaintenanceClass
    ensures estado.Str? && Lower(estado.s) == "vacaciones" <==> c == HolidayClass
  {
    if !estado.Str? then AvailableClass
    else
      var key := Lower(estado.s);
      if key == "disponible" then AvailableClass
      else if key == "asignado" then AssignedClass
      else if key == "en mantenimiento" then MaintenanceClass
      else if key == "vacaciones" then HolidayClass
      else AvailableClass
  }

  /** The badge does not depend on letter case. */
  lemma StatusClassIgnoresCase(s: string)
    ensures GetStatusClass(Str(Lower(s))) == GetStatusClass(Str(s))
  {
    LowerIdempotent(s);
  }

  /** A missing status shows as available. */
  lemma MissingStatusLooksAvailable()
    ensures GetStatusClass(Undefined) == AvailableClass && GetStatusClass(Null) == AvailableClass
  {
  }
}
