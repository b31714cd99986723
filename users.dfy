/** The user controller (apps/server/src/modules/users/users.controller.ts):
    the current user's view with owner elevation, DID rotation, the
    notification inbox and preferences, and the token checks of e-mail
    verification and of the single-use token exchange. */
module UsersController {
  import opened Common
  import opened Entities
  import opened Db
  import opened Pagination

  // ---------------------------------------------------------------------
  // getCurrentUser
  // ---------------------------------------------------------------------

  /** The permissions an organization's owner is granted whatever the role says. */
  const ManagePermissions: seq<string> := [
    "manageTemplates", "manageApplications", "manageOrganization",
    "manageOrganizationCredentials", "manageOrganizationId",
    "manageOrganizationProfiles", "manageRoles", "manageStaff", "manageExtensions"]

  /** `{...user.role, manageTemplates: true, ...}`. */
  function Elevated(role: map<string, Json>): (r: map<string, Json>)
    ensures forall k :: k in ManagePermissions ==> k in r && r[k] == JBool(true)
    ensures forall k :: k in role && k !in ManagePermissions ==> k in r && r[k] == role[k]
    ensures forall k :: k in r ==> k in role || k in ManagePermissions
  {
    role + map k | k in ManagePermissions :: JBool(true)
  }

  /** Elevating an elevated role changes nothing. */
  lemma ElevatedIdempotent(role: map<string, Json>)
    ensures Elevated(Elevated(role)) == Elevated(role)
  {
    assert Elevated(Elevated(role)).Keys == Elevated(role).Keys;
  }

  /** The number of unread notifications addressed to `userId`. */
  function UnreadCount(notes: seq<Notification>, userId: Id): (n: nat)
    ensures n <= |notes|
  {
    if notes == [] then 0
    else
      var last := notes[|notes| - 1];
      UnreadCount(notes[..|notes| - 1], userId) + if UnreadFor(last, userId) then 1 else 0
  }

  predicate UnreadFor(n: Notification, userId: Id)
  {
    !n.isRead && n.userSubject == userId
  }

  /** `unread > 0` holds exactly when some notification to the user is unread. */
  lemma {:induction false} UnreadCountPositive(notes: seq<Notification>, userId: Id)
    ensures UnreadCount(notes, userId) > 0 <==> exists i :: 0 <= i < |notes| && UnreadFor(notes[i], userId)
  {
    if notes != [] {
      var init := notes[..|notes| - 1];
      UnreadCountPositive(init, userId);
      if exists i :: 0 <= i < |init| && UnreadFor(init[i], userId) {
        var i :| 0 <= i < |init| && UnreadFor(init[i], userId);
        assert notes[i] == init[i];
      }
      if exists i :: 0 <= i < |notes| && UnreadFor(notes[i], userId) {
        var i :| 0 <= i < |notes| && UnreadFor(notes[i], userId);
        if i < |init| {
          assert init[i] == notes[i];
        }
      }
    }
  }

  datatype CurrentUserView = CurrentUserView(user: User, unread: bool, isOwner: bool, subscribed: Option<bool>)

  /** `getCurrentUser`: an organization's owner sees every manage permission;
      everyone learns whether anything is unread and whether the
      organization is subscribed. */
  method GetCurrentUser(db: Store, user: User) returns (view: CurrentUserView)
    ensures var org := OrganizationAt(db, user.organization);
      view.isOwner <==> org.Some? && org.value.ownedBy == Some(user.id)
    ensures view.user == if view.isOwner then user.(role := Elevated(user.role)) else user
    ensures view.unread <==> exists i :: 0 <= i < |db.notifications| && UnreadFor(db.notifications[i], user.id)
    ensures var org := OrganizationAt(db, user.organization);
      view.subscribed == if org.Some? && org.value.subscription.Some? then Some(org.value.subscription.value.subscribed) else None
  {
    var organization := OrganizationAt(db, user.organization);
    var isOwner := organization.Some? && organization.value.ownedBy == Some(user.id);
    var u := user;
    if isOwner {
      u := u.(role := Elevated(u.role));
    }
    var unread := UnreadCount(db.notifications, user.id);
    UnreadCountPositive(db.notifications, user.id);
    var subscribed := if organization.Some? && organization.value.subscription.Some?
      then Some(organization.value.subscription.value.subscribed) else None;
    view := CurrentUserView(u, unread > 0, isOwner, subscribed);
  }

  // ---------------------------------------------------------------------
  // rotateKeyForUser
  // ---------------------------------------------------------------------

  /** The checks on a rotation token: expiry first, then the scope. */
  function RotationGuard(t: TokenCheck): (e: Option<Error>)
    ensures t.expired ==> e == Some(BadRequest(UserExpiredToken))
    ensures !t.expired && t.payload.Some? && t.payload.value.scope != Some("rotation") ==> e == Some(BadRequest(UserInvalidScope))
    ensures e.None? <==> !t.expired && t.payload.Some? && t.payload.value.scope == Some("rotation")
  {
    if t.expired then Some(BadRequest(UserExpiredToken))
    else if t.payload.None? then Some(ServerError("payload is null"))
    else if t.payload.value.scope != Some("rotation") then Some(BadRequest(UserInvalidScope))
    else None
  }

  /** A user the rotation may discard: one with neither e-mail nor organization. */
  predicate Abandoned(u: User)
  {
    !Truthy(u.email) && u.organization.None?
  }

  /** The users once the DID's current holder `h` is discarded if abandoned. */
  function WithoutAbandoned(users: map<Id, User>, h: Id): (r: map<Id, User>)
    requires h in users
    ensures Abandoned(users[h]) ==> r == users - {h}
    ensures !Abandoned(users[h]) ==> r == users
  {
    if Abandoned(users[h]) then users - {h} else users
  }

  /** `rotateKeyForUser`: after the token checks, the DID's current holder is
      deleted when abandoned, and the caller takes the DID. The holder must
      exist (it is dereferenced), and a holder that stays keeps the DID
      unique, so the caller's update fails. */
  method RotateKeyForUser(db: Store, t: TokenCheck, did: string, userId: Id) returns (r: Result<User>)
    requires db.Valid() && userId in db.users
    modifies db`users
    ensures db.Valid()
    ensures RotationGuard(t).Some? ==> r == Err(RotationGuard(t).value) && db.users == old(db.users)
    ensures RotationGuard(t).None? && !DidTaken(old(db.users), did) ==>
      r.Err? && r.error.ServerError? && db.users == old(db.users)
    ensures RotationGuard(t).None? && DidTaken(old(db.users), did) ==>
      var h := old(HolderOf(db.users, did));
      var kept := WithoutAbandoned(old(db.users), h);
      if userId !in kept then r.Err? && db.users == kept
      else if h in kept && h != userId then r.Err? && r.error.ServerError? && db.users == kept
      else r == Ok(kept[userId].(did := Some(did))) && db.users == kept[userId := r.value]
  {
    var guard := RotationGuard(t);
    if guard.Some? {
      return Err(guard.value);
    }
    var holder := FindUserByDid(db, did);
    if holder.None? {
      return Err(ServerError("_didExists is null"));
    }
    var h := holder.value;
    assert h.id == HolderOf(db.users, did);
    if Abandoned(h) {
      db.users := db.users - {h.id};
    }
    if userId !in db.users {
      return Err(ServerError("the caller was removed"));
    }
    if h.id in db.users && h.id != userId {
      return Err(ServerError("duplicate key value violates unique constraint on did"));
    }
    var updated := db.users[userId].(did := Some(did));
    db.users := db.users[userId := updated];
    r := Ok(updated);
  }

  /** After a rotation the caller is the one holder of the DID. */
  lemma RotatedCallerHoldsDid(users: map<Id, User>, userId: Id, did: string)
    requires UniqueDids(users) && userId in users && users[userId].did == Some(did)
    ensures DidTaken(users, did) && HolderOf(users, did) == userId
  {
  }

  // ---------------------------------------------------------------------
  // getNotifications
  // ---------------------------------------------------------------------

  /** The user's notifications, newest first (creation order reversed). */
  function Inbox(notes: seq<Notification>, userId: Id): (r: seq<Notification>)
    ensures forall n :: n in r <==> n in notes && n.userSubject == userId
    ensures |r| <= |notes|
  {
    if notes == [] then []
    else
      var rest := Inbox(notes[1..], userId);
      assert forall n :: n in notes <==> n == notes[0] || n in notes[1..];
      if notes[0].userSubject == userId then rest + [notes[0]] else rest
  }

  /** `markAsRead(ids)`: every notification whose id is listed becomes read. */
  function MarkRead(notes: seq<Notification>, ids: seq<Id>): (r: seq<Notification>)
    ensures |r| == |notes|
    ensures forall i :: 0 <= i < |notes| ==>
      r[i] == if notes[i].id in ids then notes[i].(isRead := true) else notes[i]
  {
    seq(|notes|, i requires 0 <= i < |notes| => if notes[i].id in ids then notes[i].(isRead := true) else notes[i])
  }

  /** Marking notifications read never adds unread ones, and leaves other
      users' counts alone when none of theirs is listed. */
  lemma {:induction false} MarkReadLowersUnread(notes: seq<Notification>, ids: seq<Id>, userId: Id)
    ensures UnreadCount(MarkRead(notes, ids), userId) <= UnreadCount(notes, userId)
    ensures (forall i :: 0 <= i < |notes| && notes[i].userSubject == userId ==> notes[i].id !in ids) ==>
      UnreadCount(MarkRead(notes, ids), userId) == UnreadCount(notes, userId)
  {
    if notes != [] {
      var init := notes[..|notes| - 1];
      MarkReadLowersUnread(init, ids, userId);
      assert MarkRead(notes, ids)[..|notes| - 1] == MarkRead(init, ids);
    }
  }

  /** The update behind `markAsRead`. */
  method MarkAsRead(db: Store, ids: seq<Id>)
    modifies db`notifications
    ensures db.notifications == MarkRead(old(db.notifications), ids)
  {
    var i := 0;
    while i < |db.notifications|
      invariant 0 <= i <= |db.notifications| == |old(db.notifications)|
      invariant db.notifications[..i] == MarkRead(old(db.notifications), ids)[..i]
      invariant db.notifications[i..] == old(db.notifications)[i..]
    {
      if db.notifications[i].id in ids {
        assert db.notifications[i] == old(db.notifications)[i];
        db.notifications := db.notifications[i := db.notifications[i].(isRead := true)];
      }
      i := i + 1;
    }
  }

  datatype Paged<T> = Paged(items: seq<T>, page: int, count: nat)

  /** `getNotifications`: return one page of the user's inbox, newest first,
      and mark exactly the notifications on it as read. `size` is the
      configured page size; a page below 1 gives a negative offset, which
      the database rejects. */
  method GetNotifications(db: Store, userId: Id, page: Option<int>, size: nat) returns (r: Result<Paged<Notification>>)
    modifies db`notifications
    ensures PageNumber(page) < 1 ==> r.Err? && db.notifications == old(db.notifications)
    ensures PageNumber(page) >= 1 ==>
      var inbox := Inbox(old(db.notifications), userId);
      var items := Window(inbox, PageNumber(page), size);
      && r == Ok(Paged(items, PageNumber(page), |inbox|))
      && db.notifications == MarkRead(old(db.notifications), IdsOf(items, NotificationId))
  {
    var p := PageNumber(page);
    if p < 1 {
      return Err(ServerError("OFFSET must not be negative"));
    }
    var inbox := Inbox(db.notifications, userId);
    var items := Window(inbox, p, size);
    MarkAsRead(db, IdsOf(items, NotificationId));
    r := Ok(Paged(items, p, |inbox|));
  }

  // ---------------------------------------------------------------------
  // notificationPreferences
  // ---------------------------------------------------------------------

  /** The columns' defaults: everything on except the opt-in mailings. */
  function DefaultPreferences(id: Id): NotificationPreference
  {
    NotificationPreference(id, true, true, true, true, false, false, false, false)
  }

  datatype PreferencePatch = PreferencePatch(
    communication: Patch<bool>,
    activity: Patch<bool>,
    system: Patch<bool>,
    credential: Patch<bool>,
    newsletter: Patch<bool>,
    products: Patch<bool>,
    resources: Patch<bool>,
    emailNotifications: Patch<bool>)

  function MergePreferences(p: NotificationPreference, body: PreferencePatch): (r: NotificationPreference)
    ensures r.id == p.id
  {
    NotificationPreference(p.id,
      Patched(body.communication, p.communication),
      Patched(body.activity, p.activity),
      Patched(body.system, p.system),
      Patched(body.credential, p.credential),
      Patched(body.newsletter, p.newsletter),
      Patched(body.products, p.products),
      Patched(body.resources, p.resources),
      Patched(body.emailNotifications, p.emailNotifications))
  }

  function ThenPreferences(a: PreferencePatch, b: PreferencePatch): PreferencePatch
  {
    PreferencePatch(
      Then(a.communication, b.communication), Then(a.activity, b.activity),
      Then(a.system, b.system), Then(a.credential, b.credential),
      Then(a.newsletter, b.newsletter), Then(a.products, b.products),
      Then(a.resources, b.resources), Then(a.emailNotifications, b.emailNotifications))
  }

  /** Repeating an update of the preferences changes nothing further. */
  lemma MergePreferencesIdempotent(p: NotificationPreference, a: PreferencePatch)
    ensures MergePreferences(MergePreferences(p, a), a) == MergePreferences(p, a)
  {
  }

  /** Two updates of the preferences are one update where the later value wins. */
  lemma MergePreferencesCompose(p: NotificationPreference, a: PreferencePatch, b: PreferencePatch)
    ensures MergePreferences(MergePreferences(p, a), b) == MergePreferences(p, ThenPreferences(a, b))
  {
    PatchedThen(a.communication, b.communication, p.communication);
    PatchedThen(a.activity, b.activity, p.activity);
    PatchedThen(a.system, b.system, p.system);
    PatchedThen(a.credential, b.credential, p.credential);
    PatchedThen(a.newsletter, b.newsletter, p.newsletter);
    PatchedThen(a.products, b.products, p.products);
    PatchedThen(a.resources, b.resources, p.resources);
    PatchedThen(a.emailNotifications, b.emailNotifications, p.emailNotifications);
  }

  /** The user's stored preferences, when the relation points at a stored row. */
  function PreferencesOf(db: Store, userId: Id): (p: Option<Id>)
    requires userId in db.users
    reads db
    ensures p.Some? <==> db.users[userId].notificationPreferences.Some? && db.users[userId].notificationPreferences.value in db.preferences
    ensures p.Some? ==> p == db.users[userId].notificationPreferences
  {
    var link := db.users[userId].notificationPreferences;
    if link.Some? && link.value in db.preferences then link else None
  }

  /** `notificationPreferences`: update the user's preferences, or create
      them from the defaults and link them to the user. Either way the user
      ends up linked to exactly the returned record. */
  method UpsertNotificationPreferences(db: Store, userId: Id, body: PreferencePatch) returns (prefs: NotificationPreference)
    requires db.Valid() && userId in db.users
    modifies db`preferences, db`users
    ensures db.Valid()
    ensures userId in db.users && db.users[userId].notificationPreferences == Some(prefs.id)
    ensures prefs.id in db.preferences && db.preferences[prefs.id] == prefs
    ensures old(PreferencesOf(db, userId)).Some? ==>
      var pid := old(PreferencesOf(db, userId)).value;
      && prefs == MergePreferences(old(db.preferences)[pid], body)
      && db.preferences == old(db.preferences)[pid := prefs]
      && db.users == old(db.users)
    ensures old(PreferencesOf(db, userId)).None? ==>
      && prefs.id !in old(db.preferences)
      && prefs == MergePreferences(DefaultPreferences(prefs.id), body)
      && db.preferences == old(db.preferences)[prefs.id := prefs]
      && db.users == old(db.users)[userId := old(db.users)[userId].(notificationPreferences := Some(prefs.id))]
  {
    var link := PreferencesOf(db, userId);
    if link.Some? {
      prefs := MergePreferences(db.preferences[link.value], body);
      db.preferences := db.preferences[link.value := prefs];
      return;
    }
    var id := FreshKey(db.preferences.Keys);
    prefs := MergePreferences(DefaultPreferences(id), body);
    db.preferences := db.preferences[id := prefs];
    db.users := db.users[userId := db.users[userId].(notificationPreferences := Some(id))];
  }

  // ---------------------------------------------------------------------
  // verifyEmailToken
  // ---------------------------------------------------------------------

  /** The checks on a user e-mail verification token, in order: expiry,
      scope, context, and that it names the caller. */
  function EmailVerificationGuard(t: TokenCheck, userId: Id): (e: Option<Error>)
    ensures t.expired ==> e == Some(BadRequest(UserExpiredToken))
    ensures !t.expired && t.payload.Some? ==>
      var c := t.payload.value;
      && (c.scope != Some("email-verification") ==> e == Some(BadRequest(UserInvalidScope)))
      && (c.scope == Some("email-verification") && c.context != Some("user") ==> e == Some(BadRequest(UserInvalidContext)))
      && (c.scope == Some("email-verification") && c.context == Some("user") && c.userId != Some(userId) ==>
            e == Some(BadRequest(BadEmailVerification)))
    ensures e.None? <==> (
      && !t.expired && t.payload.Some?
      && t.payload.value.scope == Some("email-verification") && t.payload.value.context == Some("user")
      && t.payload.value.userId == Some(userId))
  {
    if t.expired then Some(BadRequest(UserExpiredToken))
    else if t.payload.None? then Some(ServerError("payload is null"))
    else if t.payload.value.scope != Some("email-verification") then Some(BadRequest(UserInvalidScope))
    else if t.payload.value.context != Some("user") then Some(BadRequest(UserInvalidContext))
    else if t.payload.value.userId != Some(userId) then Some(BadRequest(BadEmailVerification))
    else None
  }

  /** `verifyEmailToken`: only a token passing every check marks the
      caller's e-mail verified; nothing else changes. */
  method VerifyEmailToken(db: Store, t: TokenCheck, userId: Id) returns (r: Result<()>)
    requires db.Valid() && userId in db.users
    modifies db`users
    ensures db.Valid()
    ensures EmailVerificationGuard(t, userId).Some? ==>
      r == Err(EmailVerificationGuard(t, userId).value) && db.users == old(db.users)
    ensures EmailVerificationGuard(t, userId).None? ==>
      && r.Ok?
      && db.users == old(db.users)[userId := old(db.users)[userId].(emailVerified := true)]
  {
    var guard := EmailVerificationGuard(t, userId);
    if guard.Some? {
      return Err(guard.value);
    }
    var updated := db.users[userId].(emailVerified := true);
    db.users := db.users[userId := updated];
    r := Ok(());
  }

  // ---------------------------------------------------------------------
  // exchangeSingleUseTokenForAccessToken
  // ---------------------------------------------------------------------

  const TemporaryAuthScope := "temporary-auth"
  const FlowUserScope := "flow-user-access-token"

  /** The claims of the access token a single-use token is exchanged for. */
  function ExchangeSingleUseToken(t: TokenCheck): (r: Result<TokenClaims>)
    ensures t.payload.None? || t.expired ==> r == Err(BadRequest(Unspecified))
    ensures t.payload.Some? && !t.expired && t.payload.value.scope != Some(TemporaryAuthScope) ==> r == Err(Forbidden(Unspecified))
    ensures r.Ok? <==> t.payload.Some? && !t.expired && t.payload.value.scope == Some(TemporaryAuthScope)
    ensures r.Ok? ==> r.value.applicationId == t.payload.value.applicationId && r.value.scope == Some(FlowUserScope)
  {
    if t.payload.None? || t.expired then Err(BadRequest(Unspecified))
    else if t.payload.value.scope != Some(TemporaryAuthScope) then Err(Forbidden(Unspecified))
    else Ok(TokenClaims(Some(FlowUserScope), None, None, None, t.payload.value.applicationId))
  }

  /** The access token cannot itself be exchanged again: it is single-use
      in the sense that its successor is refused. */
  lemma ExchangedTokenIsNotExchangeable(t: TokenCheck)
    requires ExchangeSingleUseToken(t).Ok?
    ensures ExchangeSingleUseToken(TokenCheck(Some(ExchangeSingleUseToken(t).value), false)) == Err(Forbidden(Unspecified))
  {
  }
}
