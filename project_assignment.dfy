/** The `ProjectAssignment` component of frontend-recursos: choosing a
    staff member and a project, and the request that assigns one to the
    other. This file reads the camelCase `proyectoAsignado`. */
module ProjectAssignment {
  import opened Json
  import opened Options
  import Seqs
  import opened Fetch
  import Store
  import RecursosApi

  /** The `assignment` state. */
  datatype Assignment = Assignment(personalId: string, proyecto: string)

  const NoSelection := Assignment("", "")

  /** The URL prefix of the request; the id is appended as `${personalId}`. */
  const PersonalUrl := "http://localhost:4000/api/personal/"

  const MissingSelectionMessage := "Selecciona personal y proyecto"
  const AssignedMessage := "Personal asignado correctamente"

  /** The PUT that `handleAssign` sends. */
  function AssignRequest(a: Assignment): (req: Request)
    ensures req.verb == Put && req.url == PersonalUrl + a.personalId
    // the body holds the chosen project and nothing else
    ensures req.body.Keys == {"proyectoAsignado"} && req.body["proyectoAsignado"] == Str(a.proyecto)
  {
    Request(Put, PersonalUrl + a.personalId, map["proyectoAsignado" := Str(a.proyecto)])
  }

  // ---------------------------------------------------------------- eligible staff

  /** The test of `personalDisponible`. */
  predicate Eligible(p: JsObject) {
    Prop(p, "estado") == Str("Disponible") || Prop(p, "proyectoAsignado") == Str("Sin asignación")
  }

  function EligibleStep(): JsObject -> bool {
    (p: JsObject) => Eligible(p)
  }

  /** `personalDisponible`: the staff offered in the first select. */
  function PersonalDisponible(resources: seq<JsObject>): (r: seq<JsObject>)
    ensures |r| <= |resources|
    ensures forall p :: p in r <==> p in resources && Eligible(p)
    ensures Seqs.IsSubsequence(r, resources)
    // each offered member appears as often as in the list, the others never
    ensures forall p :: multiset(r)[p] == if Eligible(p) then multiset(resources)[p] else 0
  {
    Seqs.FilterIsSubsequence(resources, EligibleStep());
    Seqs.FilterMultiplicity(resources, EligibleStep());
    Seqs.Filter(resources, EligibleStep())
  }

  /** On a row as the resources API sends it, which has `proyecto_asignado`
      and no `proyectoAsignado`, only the status decides: a member without
      a project who is not 'Disponible' is never offered. */
  lemma OnApiRowsOnlyStatusCounts(row: Store.Row<RecursosApi.Recurso>)
    ensures Eligible(RecursosApi.RecursoJson(row).props) <==> Store.ToJson(row.data.estado) == Str("Disponible")
  {
  }

  /** The body of the assignment request, read as the resources API reads a
      PUT body, has none of its seven properties: that update would change
      nothing. */
  lemma AssignmentBodyChangesNoRecurso(current: RecursosApi.Recurso, a: Assignment)
    ensures RecursosApi.Merge(current, RecursosApi.BodyOf(AssignRequest(a).body)) == current
  {
    var b := AssignRequest(a).body;
    assert forall k :: k in b ==> k == "proyectoAsignado";
    assert forall k :: k in RecursosApi.Columns ==> k !in b;
  }

  // ---------------------------------------------------------------- the component

  class ProjectAssignmentState {
    var assignment: Assignment

    constructor ()
      ensures assignment == NoSelection
    {
      assignment := NoSelection;
    }

    /** The staff select's `onChange`. */
    method SelectPersonal(value: string)
      modifies this
      ensures assignment == old(assignment).(personalId := value)
    {
      assignment := assignment.(personalId := value);
    }

    /** The project select's `onChange`. */
    method SelectProyecto(value: string)
      modifies this
      ensures assignment == old(assignment).(proyecto := value)
    {
      assignment := assignment.(proyecto := value);
    }

    /** `handleAssign`. `outcome` is how the request ends, when one is sent.
        Returns the request sent, the alert shown and whether
        `onAssignmentUpdate` ran. */
    method HandleAssign(outcome: Outcome) returns (sent: Option<Request>, alert: Option<string>, notified: bool)
      modifies this
      // without both choices nothing is sent
      ensures old(assignment).personalId == "" || old(assignment).proyecto == "" ==>
                sent == None && alert == Some(MissingSelectionMessage) && !notified && assignment == old(assignment)
      ensures old(assignment).personalId != "" && old(assignment).proyecto != "" ==>
                sent == Some(AssignRequest(old(assignment)))
      // an ok response resets the choices and reloads
      ensures old(assignment).personalId != "" && old(assignment).proyecto != "" && Succeeded(outcome) ==>
                alert == Some(AssignedMessage) && assignment == NoSelection && notified
      // a failed response or a rejection changes nothing and says nothing
      ensures old(assignment).personalId != "" && old(assignment).proyecto != "" && !Succeeded(outcome) ==>
                alert == None && assignment == old(assignment) && !notified
    {
      if assignment.personalId == "" || assignment.proyecto == "" {
        return None, Some(MissingSelectionMessage), false;
      }
      sent := Some(AssignRequest(assignment));
      alert := None;
      notified := false;
      if outcome.Responded? && outcome.ok {
        alert := Some(AssignedMessage);
        assignment := NoSelection;
        notified := true;
      }
    }
  }
}
