/** The `DocumentTable` component of frontend-documental: the delete
    button's flow, the status badge and the count in the footer. */
module DocumentTable {
  import opened Json
  import opened Text
  import opened Options
  import DocumentsApi
  import DocumentsRoutes
  import opened DocumentService

  // ---------------------------------------------------------------- delete

  /** What `handleDelete` does, in order: ask for confirmation, send the
      delete, show an alert, ask the parent to reload. */
  datatype Effect = Confirm(question: string) | Send(call: Call) | Alert(message: string) | Reload

  const DeletedMessage := "✅ Documento eliminado correctamente"
  const DeleteFailedMessage := "❌ Error al eliminar el documento"

  /** The confirmation question, naming the document as `${nombre}` does. */
  function ConfirmQuestion(nombre: Value): string {
    "¿Estás seguro de eliminar el documento \"" + Interpolate(nombre) + "\"?"
  }

  /** `handleDelete(id, nombre)`. `confirmed` is the user's answer,
      `deleted` whether the service call resolves, `hasCallback` whether
      `onDocumentUpdate` was passed. */
  function HandleDelete(id: nat, nombre: Value, confirmed: bool, deleted: bool, hasCallback: bool): (effects: seq<Effect>)
    ensures |effects| >= 1 && effects[0] == Confirm(ConfirmQuestion(nombre))
    // a refusal does nothing more
    ensures !confirmed ==> effects == [Confirm(ConfirmQuestion(nombre))]
    // an acceptance sends exactly the delete of that id, then reports the outcome
    ensures confirmed ==> |effects| >= 3 && effects[1] == Send(DeleteCall(id))
    ensures confirmed ==> effects[2] == Alert(if deleted then DeletedMessage else DeleteFailedMessage)
    // the list is reloaded exactly after a delete that succeeded
    ensures Reload in effects <==> confirmed && deleted && hasCallback
  {
    var ask := [Confirm(ConfirmQuestion(nombre))];
    if !confirmed then ask
    else if !deleted then ask + [Send(DeleteCall(id)), Alert(DeleteFailedMessage)]
    else if hasCallback then ask + [Send(DeleteCall(id)), Alert(DeletedMessage), Reload]
    else ask + [Send(DeleteCall(id)), Alert(DeletedMessage)]
  }

  /** Every request a delete sends reaches the delete handler of the API. */
  lemma DeleteSendsToDeleteHandler(id: nat, nombre: Value, confirmed: bool, deleted: bool, hasCallback: bool, c: Call)
    requires Send(c) in HandleDelete(id, nombre, confirmed, deleted, hasCallback)
    ensures Reaches(c) == Some(DocumentsRoutes.DeleteDocument)
  {
    var effects := HandleDelete(id, nombre, confirmed, deleted, hasCallback);
    assert c == DeleteCall(id) by {
      var k :| 0 <= k < |effects| && effects[k] == Send(c);
    }
    OtherCallsReachTheirHandlers(id, DocumentsApi.EmptyBody);
  }

  // ---------------------------------------------------------------- status badge

  const ActiveClass := "status-active"
  const ReviewClass := "status-review"
  const ArchivedClass := "status-archived"
  const DraftClass := "status-borrador"

  /** `getStatusClass`: the switch on `estado?.toLowerCase()`; a missing
      status and any unknown one fall to the default. */
  function GetStatusClass(estado: Value): (c: string)
    ensures c in {ActiveClass, ReviewClass, ArchivedClass, DraftClass}
    ensures estado.Str? && Lower(estado.s) == "en revisión" <==> c == ReviewClass
    ensures estado.Str? && Lower(estado.s) == "archivado" <==> c == ArchivedClass
    ensures estado.Str? && Lower(estado.s) == "borrador" <==> c == DraftClass
  {
    if !estado.Str? then ActiveClass
    else
      var key := Lower(estado.s);
      if key == "activo" then ActiveClass
      else if key == "en revisión" then ReviewClass
      else if key == "archivado" then ArchivedClass
      else if key == "borrador" then DraftClass
      else ActiveClass
  }

  /** The badge does not depend on letter case. */
  lemma StatusClassIgnoresCase(s: string)
    ensures GetStatusClass(Str(Lower(s))) == GetStatusClass(Str(s))
  {
    LowerIdempotent(s);
  }

  /** The four Spanish statuses get four different badges. */
  lemma SpanishStatusesHaveTheirOwnClass()
    ensures GetStatusClass(Str("Activo")) == ActiveClass
    ensures GetStatusClass(Str("En Revisión")) == ReviewClass
    ensures GetStatusClass(Str("Archivado")) == ArchivedClass
    ensures GetStatusClass(Str("Borrador")) == DraftClass
  {
    assert Lower("Activo") == "activo";
    assert Lower("En Revisión") == "en revisión";
    assert Lower("Archivado") == "archivado";
    assert Lower("Borrador") == "borrador";
  }

  /** A document without a status shows the same badge as an active one. */
  lemma MissingStatusLooksActive()
    ensures GetStatusClass(Null) == GetStatusClass(Str("Activo"))
    ensures GetStatusClass(Undefined) == ActiveClass
  {
    assert Lower("Activo") == "activo";
  }

  // ---------------------------------------------------------------- footer

  const FooterPrefix := "Mostrando "
  const FooterSuffix := " documentos"

  /** The footer below a table of `documents`, which shows its length. */
  function FooterText(documents: seq<Documento>): (t: string)
    ensures |t| == |FooterPrefix| + |NatToString(|documents|)| + |FooterSuffix|
    ensures t[..|FooterPrefix|] == FooterPrefix
  {
    FooterPrefix + NatToString(|documents|) + FooterSuffix
  }

  /** Lists of different lengths give different footers. */
  lemma FooterTextInjective(documents: seq<Documento>, others: seq<Documento>)
    requires FooterText(documents) == FooterText(others)
    ensures |documents| == |others|
  {
    var a, b := NatToString(|documents|), NatToString(|others|);
    var p := |FooterPrefix|;
    assert |a| == |b|;
    assert a == FooterText(documents)[p..p + |a|];
    assert b == FooterText(others)[p..p + |b|];
    NatToStringInjective(|documents|, |others|);
  }
}
