/** The `ResourcesDashboard` component of frontend-recursos: the four
    counters above the staff list. */
module ResourcesDashboard {
  import opened Json
  import Seqs
  import ProjectAssignment

  /** The `stats` object. */
  datatype DashboardStats = DashboardStats(
    personalTotal: nat, personalDisponible: nat, equiposTotal: nat, equiposDisponibles: nat)

  /** `res => res.estado === 'Disponible'`. */
  predicate IsDisponible(r: JsObject) {
    Prop(r, "estado") == Str("Disponible")
  }

  function DisponibleStep(): JsObject -> bool {
    (r: JsObject) => IsDisponible(r)
  }

  /** `stats`: the list length, the available ones among them, and two
      equipment counters that are constant zero. */
  function Stats(resources: seq<JsObject>): (s: DashboardStats)
    ensures s.personalTotal == |resources|
    ensures s.personalDisponible <= s.personalTotal
    ensures s.equiposTotal == 0 && s.equiposDisponibles == 0
  {
    DashboardStats(|resources|, |Seqs.Filter(resources, DisponibleStep())|, 0, 0)
  }

  /** No resources, no available ones. */
  lemma NoResourcesNoneAvailable()
    ensures Stats([]).personalDisponible == 0
  {
  }

  /** Adding one resource raises the available count by one exactly when
      its status is 'Disponible'. */
  lemma OneMoreResource(resources: seq<JsObject>, r: JsObject)
    ensures Stats(resources + [r]).personalDisponible
            == Stats(resources).personalDisponible + (if IsDisponible(r) then 1 else 0)
  {
    Seqs.FilterAppend(resources, [r], DisponibleStep());
  }

  /** Every member the dashboard counts as available is offered for
      assignment, so the counter never exceeds the length of that list. */
  lemma AvailableAreOffered(resources: seq<JsObject>)
    ensures Stats(resources).personalDisponible <= |ProjectAssignment.PersonalDisponible(resources)|
  {
    Seqs.FilterMonotone(resources, DisponibleStep(), ProjectAssignment.EligibleStep());
  }
}
