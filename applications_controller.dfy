/** The application endpoints
    (apps/server/src/modules/applications/applications.controller.ts):
    creating an application for the signed-in user or for an e-mail
    recipient, and the query behind a user's application list. */
module ApplicationsController {
  import opened Common
  import opened Entities
  import opened Db
  import opened Pagination
  import ApplicationsService
  import NotificationService

  const ApplicationSource := "application"

  /** The record `create` is handed; the columns not supplied take their
      defaults (`status` pending, `claimed` false). */
  function Draft(body: map<string, Json>, user: Option<Id>, email: Option<string>): (a: Application)
    ensures a.status == PendingStatus && !a.claimed && a.source == ApplicationSource
    ensures a.body == body && a.user == user && a.email == email && a.template.None?
  {
    Application("", PendingStatus, ApplicationSource, body, false, None, None, user, email, None, None, None, None)
  }

  /** `createNewApplication`: create the caller's application, then raise
      its created-notification. A pending application gets no issuance. */
  method CreateNewApplication(db: Store, body: map<string, Json>, userId: Id) returns (a: Application)
    requires db.Valid()
    modifies db`applications, db`issuances, db`notifications
    ensures db.Valid()
    ensures a == Draft(body, Some(userId), None).(id := a.id) && a.id !in old(db.applications)
    ensures db.applications == old(db.applications)[a.id := a]
    ensures db.issuances == old(db.issuances)
    ensures var drafts := NotificationService.CreatedNotifications(a, userId, old(NotificationService.StoredPreferences(db, userId)));
      && |db.notifications| == |old(db.notifications)| + |drafts|
      && db.notifications[..|old(db.notifications)|] == old(db.notifications)
      && forall i :: |old(db.notifications)| <= i < |db.notifications| ==>
           db.notifications[i] == Notification(db.notifications[i].id, NotificationService.ApplicationCreated, false, userId, userId, Some(a.id))
  {
    a := ApplicationsService.Create(db, Draft(body, Some(userId), None));
    assert !ApplicationsService.Allocates(old(db.issuances), a);
    var _ := NotificationService.ApplicationCreatedNotification(db, a);
  }

  /** `createNewExternalApplication`: a recipient e-mail is required and must
      pass `validEmail`; the template id in the body is not used. */
  method CreateNewExternalApplication(db: Store, email: Option<string>, body: map<string, Json>, validEmail: string -> bool)
    returns (r: Result<()>)
    requires db.Valid()
    modifies db`applications, db`issuances
    ensures db.Valid()
    ensures r.Err? <==> !Truthy(email) || !validEmail(email.value)
    ensures r.Err? ==> r.error == BadRequest(BadRecipientEmail) && db.applications == old(db.applications)
    ensures r.Ok? ==>
      exists id :: id !in old(db.applications) && db.applications == old(db.applications)[id := Draft(body, None, email).(id := id)]
    ensures db.issuances == old(db.issuances)
  {
    if !Truthy(email) || !validEmail(email.value) {
      return Err(BadRequest(BadRecipientEmail));
    }
    var a := ApplicationsService.Create(db, Draft(body, None, email));
    assert !ApplicationsService.Allocates(old(db.issuances), a);
    r := Ok(());
  }

  // ---------------------------------------------------------------------
  // getAllUserApplications
  // ---------------------------------------------------------------------

  datatype StatusFilter = AnyStatus | Exactly(status: string)

  /** The query object `findManyAndCount` receives, newest first. */
  datatype ApplicationQuery = ApplicationQuery(user: Id, status: StatusFilter, take: nat, skip: int)

  /** Parameter defaulting and query construction; `size` is the configured
      page size. */
  function BuildQuery(userId: Id, page: Option<int>, status: Option<string>, size: nat): (q: ApplicationQuery)
    ensures q.user == userId && q.take == size && q.skip == Skip(PageNumber(page), size)
    ensures q.status == AnyStatus <==> !Truthy(status) || status == Some("all")
    ensures q.status.Exactly? ==> Some(q.status.status) == status
  {
    var p := PageNumber(page);
    var filter := if !Truthy(status) || status.value == "all" then AnyStatus else Exactly(status.value);
    ApplicationQuery(userId, filter, size, (p - 1) * size)
  }

  /** The rows a query selects (`Not(IsNull())` matches every stored status). */
  predicate Selects(q: ApplicationQuery, a: Application)
  {
    a.user == Some(q.user) && match q.status
      case AnyStatus => true
      case Exactly(s) => a.status == s
  }

  /** `all`, an empty and an absent status are the same filter and select
      every application of the user; any other status selects exactly the
      applications with that status. */
  lemma StatusFilterSemantics(userId: Id, page: Option<int>, status: Option<string>, size: nat, a: Application)
    ensures var q := BuildQuery(userId, page, status, size);
      && ((!Truthy(status) || status == Some("all")) ==> (Selects(q, a) <==> a.user == Some(userId)))
      && ((Truthy(status) && status != Some("all")) ==> (Selects(q, a) <==> a.user == Some(userId) && Some(a.status) == status))
    ensures BuildQuery(userId, page, None, size) == BuildQuery(userId, page, Some("all"), size)
    ensures BuildQuery(userId, page, Some(""), size) == BuildQuery(userId, page, Some("all"), size)
  {
  }
}
