/** The submit path of app/(tabs)/report.tsx after validation: the report
    is stored, then the same form data is handed to the push fan-out. */
module ReportScreen {
  import opened Wrappers
  import opened Domain
  import Reports
  import opened Recipients
  import opened Notifications

  /** The fields of the report form. */
  datatype Form = Form(city: string, neighborhood: string, serviceType: string, status: string, description: string)

  const DefaultUserName: string := "Utilisateur"

  /** `reportData`: the author's name or a placeholder, and the description
      only when one was typed. */
  function DraftFor(author: User, form: Form, now: int): (d: ReportDraft)
    ensures d.userId == author.id && d.userEmail == author.email
    ensures d.userName == (if author.displayName.Some? && author.displayName.value != "" then author.displayName.value else DefaultUserName)
    ensures d.city == form.city && d.neighborhood == form.neighborhood
    ensures d.serviceType == form.serviceType && d.status == form.status
    ensures d.description == (if form.description == "" then None else Some(form.description))
    ensures d.imageUrl.None? && d.timestamp == now
  {
    var name := if author.displayName.Some? && author.displayName.value != "" then author.displayName.value else DefaultUserName;
    ReportDraft(author.id, name, author.email, form.city, form.neighborhood, form.serviceType, form.status,
                if form.description == "" then None else Some(form.description), None, now)
  }

  /** `reportData as OutageReport`: the draft carries no id. */
  function DraftIncident(d: ReportDraft): (inc: Incident)
    ensures inc.id.None?
    ensures inc.city == d.city && inc.neighborhood == d.neighborhood && inc.serviceType == d.serviceType
  {
    Incident(None, d.city, d.neighborhood, d.serviceType)
  }

  /** The submit as written: the id `createReport` assigns is dropped, and
      the fan-out receives the draft. When the store write throws
      (`createFails`), the handler's `catch` skips the fan-out entirely. */
  function SubmitAsWritten(store: Reports.Store, users: Option<seq<User>>, author: User, form: Form, id: string, now: int,
                           createFails: bool, gateway: (nat, seq<PushMessage>) -> GatewayReply): (r: (Reports.Store, Option<Dispatch>))
    requires !Reports.HasId(store, id)
    ensures createFails ==> r == (store, None)
    ensures !createFails ==> r.0 == Reports.CreateReport(store, DraftFor(author, form, now), id, now).0
    ensures !createFails ==> r.1 == Some(NotifyUsersOfNewReport(users, DraftIncident(DraftFor(author, form, now)), gateway))
  {
    if createFails then (store, None)
    else
      var draft := DraftFor(author, form, now);
      var (stored, _) := Reports.CreateReport(store, draft, id, now);
      (stored, Some(NotifyUsersOfNewReport(users, DraftIncident(draft), gateway)))
  }

  /** No pushed message can point at the new report: every `reportId` is
      missing. */
  lemma AsWrittenLosesReportId(store: Reports.Store, users: Option<seq<User>>, author: User, form: Form, id: string, now: int,
                               gateway: (nat, seq<PushMessage>) -> GatewayReply)
    requires !Reports.HasId(store, id)
    ensures var d := SubmitAsWritten(store, users, author, form, id, now, false, gateway).1.value;
      forall k, m :: 0 <= k < |d.attempts| && 0 <= m < |d.attempts[k].messages| ==> d.attempts[k].messages[m].reportId.None?
  {
    var inc := DraftIncident(DraftFor(author, form, now));
    var d := NotifyUsersOfNewReport(users, inc, gateway);
    forall k, m | 0 <= k < |d.attempts| && 0 <= m < |d.attempts[k].messages|
      ensures d.attempts[k].messages[m].reportId.None?
    {
      assert d.attempts[k].messages == BuildMessages(Batches(users.value, inc)[k], inc);
    }
  }

  /** The submit as intended: the fan-out receives the stored report, id
      included; a failed store write still skips the fan-out. */
  function SubmitFixed(store: Reports.Store, users: Option<seq<User>>, author: User, form: Form, id: string, now: int,
                       createFails: bool, gateway: (nat, seq<PushMessage>) -> GatewayReply): (r: (Reports.Store, Option<Dispatch>))
    requires !Reports.HasId(store, id)
    ensures createFails ==> r == (store, None)
    ensures !createFails ==> r.0 == Reports.CreateReport(store, DraftFor(author, form, now), id, now).0
    ensures !createFails ==> Reports.HasId(r.0, id) && r.1.Some?
    ensures r.1.Some? ==> var d := r.1.value;
      forall k, m :: 0 <= k < |d.attempts| && 0 <= m < |d.attempts[k].messages| ==> d.attempts[k].messages[m].reportId == Some(id)
  {
    if createFails then (store, None) else
    var draft := DraftFor(author, form, now);
    var (stored, newId) := Reports.CreateReport(store, draft, id, now);
    var report := stored[|stored| - 1];
    assert report.id == id;
    var inc := IncidentOf(report);
    var d := NotifyUsersOfNewReport(users, inc, gateway);
    forall k, m | 0 <= k < |d.attempts| && 0 <= m < |d.attempts[k].messages|
      ensures d.attempts[k].messages[m].reportId == Some(id)
    {
      assert d.attempts[k].messages == BuildMessages(Batches(users.value, inc)[k], inc);
    }
    (stored, Some(d))
  }

  /** The fix changes nothing but the id: the same tokens are batched the
      same way, so the same devices are addressed in the same calls. */
  lemma FixKeepsRecipients(store: Reports.Store, users: seq<User>, author: User, form: Form, id: string, now: int)
    requires !Reports.HasId(store, id)
    ensures var draft := DraftFor(author, form, now);
      var stored := Reports.CreateReport(store, draft, id, now).0;
      Batches(users, IncidentOf(stored[|stored| - 1])) == Batches(users, DraftIncident(draft))
  {
    var draft := DraftFor(author, form, now);
    var stored := Reports.CreateReport(store, draft, id, now).0;
    ResolutionIgnoresId(users, IncidentOf(stored[|stored| - 1]), DraftIncident(draft));
  }
}
