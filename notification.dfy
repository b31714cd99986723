/** The notification raised when an application is created
    (apps/server/src/services/notification.service.ts). */
module NotificationService {
  import opened Common
  import opened Entities
  import opened Db
  import UsersController

  const ApplicationCreated := "APPLICATION_CREATED"

  /** A notification before the store gives it an id. */
  datatype NotificationDraft = NotificationDraft(kind: string, userSubject: Id, userTarget: Id, application: Id)

  /** A user is notified unless they have preferences that turn credential
      notifications off. */
  predicate WantsCredentialNotices(prefs: Option<NotificationPreference>)
  {
    prefs.None? || prefs.value.credential
  }

  /** The map/filter over `[application.user]`. */
  function CreatedNotifications(app: Application, userId: Id, prefs: Option<NotificationPreference>): (drafts: seq<NotificationDraft>)
    ensures |drafts| <= 1
    ensures |drafts| == 1 <==> WantsCredentialNotices(prefs)
    ensures forall d :: d in drafts ==> d == NotificationDraft(ApplicationCreated, userId, userId, app.id)
  {
    var users := [userId];
    var mapped := seq(|users|, i requires 0 <= i < |users| =>
      if !WantsCredentialNotices(prefs) then None
      else Some(NotificationDraft(ApplicationCreated, users[i], userId, app.id)));
    Present(mapped)
  }

  /** `.filter((n) => !!n)`: the present values, in order. */
  function Present(xs: seq<Option<NotificationDraft>>): (r: seq<NotificationDraft>)
    ensures |r| <= |xs|
    ensures forall x :: x in r <==> Some(x) in xs
    ensures (forall i :: 0 <= i < |xs| ==> xs[i].Some?) ==> |r| == |xs|
  {
    if xs == [] then []
    else
      var rest := Present(xs[1..]);
      assert forall o :: o in xs <==> o == xs[0] || o in xs[1..];
      if xs[0].Some? then [xs[0].value] + rest else rest
  }

  /** New users and freshly created preferences are notified; opting out
      of credential notices silences them. */
  lemma PreferencesDecideNotices(p: NotificationPreference, body: UsersController.PreferencePatch, id: Id)
    ensures WantsCredentialNotices(None)
    ensures WantsCredentialNotices(Some(UsersController.DefaultPreferences(id)))
    ensures body.credential == Set(false) ==> !WantsCredentialNotices(Some(UsersController.MergePreferences(p, body)))
    ensures body.credential == Set(true) ==> WantsCredentialNotices(Some(UsersController.MergePreferences(p, body)))
  {
  }

  /** The preferences linked to a stored user, if any. */
  function StoredPreferences(db: Store, userId: Id): (prefs: Option<NotificationPreference>)
    reads db
    ensures prefs.Some? <==> (userId in db.users && db.users[userId].notificationPreferences.Some?
      && db.users[userId].notificationPreferences.value in db.preferences)
    ensures prefs.Some? ==> prefs.value == db.preferences[db.users[userId].notificationPreferences.value]
  {
    if userId in db.users && db.users[userId].notificationPreferences.Some?
      && db.users[userId].notificationPreferences.value in db.preferences
    then Some(db.preferences[db.users[userId].notificationPreferences.value])
    else None
  }

  /** The ids the notifications already use. */
  function NotificationIds(notes: seq<Notification>): set<Id>
  {
    set n | n in notes :: n.id
  }

  /** `createBulk`: store each draft, unread, under a fresh id. */
  method SaveNotifications(db: Store, drafts: seq<NotificationDraft>) returns (saved: seq<Notification>)
    modifies db`notifications
    ensures |saved| == |drafts|
    ensures forall i :: 0 <= i < |drafts| ==>
      saved[i] == Notification(saved[i].id, drafts[i].kind, false, drafts[i].userSubject, drafts[i].userTarget, Some(drafts[i].application))
    ensures db.notifications == old(db.notifications) + saved
  {
    saved := [];
    var i := 0;
    while i < |drafts|
      invariant 0 <= i <= |drafts| && |saved| == i
      invariant forall j :: 0 <= j < i ==>
        saved[j] == Notification(saved[j].id, drafts[j].kind, false, drafts[j].userSubject, drafts[j].userTarget, Some(drafts[j].application))
      invariant db.notifications == old(db.notifications) + saved
    {
      var id := FreshKey(NotificationIds(db.notifications));
      var d := drafts[i];
      var n := Notification(id, d.kind, false, d.userSubject, d.userTarget, Some(d.application));
      db.notifications := db.notifications + [n];
      saved := saved + [n];
      i := i + 1;
    }
  }

  /** `applicationCreatedNotification`: an application without a user is an
      error; otherwise the filtered notifications, and only they, are
      appended to the stored ones. It resolves to nothing. */
  method ApplicationCreatedNotification(db: Store, app: Application) returns (r: Result<()>)
    modifies db`notifications
    ensures app.user.None? ==> r.Err? && db.notifications == old(db.notifications)
    ensures app.user.Some? ==>
      var drafts := CreatedNotifications(app, app.user.value, old(StoredPreferences(db, app.user.value)));
      && r.Ok?
      && |db.notifications| == |old(db.notifications)| + |drafts|
      && db.notifications[..|old(db.notifications)|] == old(db.notifications)
      && forall i :: |old(db.notifications)| <= i < |db.notifications| ==>
           db.notifications[i] == Notification(db.notifications[i].id, ApplicationCreated, false, app.user.value, app.user.value, Some(app.id))
  {
    if app.user.None? {
      return Err(ServerError("requires template and user or user email"));
    }
    var drafts := CreatedNotifications(app, app.user.value, StoredPreferences(db, app.user.value));
    var saved := SaveNotifications(db, drafts);
    assert db.notifications[|old(db.notifications)|..] == saved;
    r := Ok(());
  }
}
