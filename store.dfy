/** The abstract in-memory store behind every repository the core uses:
    one map (or, where row order matters, one sequence) per table, plus the
    logs that stand for fire-and-forget side effects (WebSocket broadcasts,
    sent mail, usage reports). */
module Db {
  import opened Common
  import opened Entities

  class Store {
    var applications: map<Id, Application>
    var issuances: seq<Issuance>
    var templates: map<Id, Template>
    var flows: map<Id, Flow>
    var stepActions: seq<StepAction>
    var siopOffers: map<Id, SiopOffer>
    var credOffers: map<Id, CredOffer>
    var sessions: map<Id, Session>
    var users: map<Id, User>
    var organizations: map<Id, Organization>
    var identities: map<Id, Identity>
    var didAliases: set<string>  // aliases the identity agent already manages
    var orgCredentials: map<Id, OrgCredential>
    var notifications: seq<Notification>  // in creation order
    var preferences: map<Id, NotificationPreference>
    var broadcasts: seq<Broadcast>
    var mails: seq<Mail>
    var usageReports: seq<UsageReport>

    /** Every row is stored under its own primary key, and the issuance
        table obeys its constraints: each row belongs to a stored
        application, at most one row per application, and the
        `(template, applicationIndex)` pair is unique. */
    ghost predicate Valid()
      reads this
    {
      && ApplicationsKeyed(applications)
      && TemplatesKeyed(templates)
      && SiopOffersKeyed(siopOffers)
      && CredOffersKeyed(credOffers)
      && SessionsKeyed(sessions)
      && UsersKeyed(users)
      && OrganizationsKeyed(organizations)
      && IdentitiesKeyed(identities)
      && OrgCredentialsKeyed(orgCredentials)
      && PreferencesKeyed(preferences)
      && IssuancesValid(issuances, applications.Keys)
      && UniqueDids(users)
    }

    constructor ()
      ensures Valid()
      ensures applications == map[] && issuances == [] && users == map[]
    {
      applications := map[];
      issuances := [];
      templates := map[];
      flows := map[];
      stepActions := [];
      siopOffers := map[];
      credOffers := map[];
      sessions := map[];
      users := map[];
      organizations := map[];
      identities := map[];
      didAliases := {};
      orgCredentials := map[];
      notifications := [];
      preferences := map[];
      broadcasts := [];
      mails := [];
      usageReports := [];
    }
  }

  // Each table stores a row under its own primary key.
  predicate ApplicationsKeyed(m: map<Id, Application>) { forall k | k in m :: m[k].id == k }
  predicate TemplatesKeyed(m: map<Id, Template>) { forall k | k in m :: m[k].id == k }
  predicate SiopOffersKeyed(m: map<Id, SiopOffer>) { forall k | k in m :: m[k].id == k }
  predicate CredOffersKeyed(m: map<Id, CredOffer>) { forall k | k in m :: m[k].id == k }
  predicate SessionsKeyed(m: map<Id, Session>) { forall k | k in m :: m[k].id == k }
  predicate UsersKeyed(m: map<Id, User>) { forall k | k in m :: m[k].id == k }
  predicate OrganizationsKeyed(m: map<Id, Organization>) { forall k | k in m :: m[k].id == k }
  predicate IdentitiesKeyed(m: map<Id, Identity>) { forall k | k in m :: m[k].id == k }
  predicate OrgCredentialsKeyed(m: map<Id, OrgCredential>) { forall k | k in m :: m[k].id == k }
  predicate PreferencesKeyed(m: map<Id, NotificationPreference>) { forall k | k in m :: m[k].id == k }

  /** Some row of the issuance table belongs to application `app`. */
  predicate HasIssuance(rows: seq<Issuance>, app: Id)
  {
    exists k :: 0 <= k < |rows| && rows[k].application == app
  }

  /** The unique constraint `unique_credential_issuance(template, applicationIndex)`;
      rows without a template never collide, as NULLs do not in SQL. */
  predicate UniqueIndices(rows: seq<Issuance>)
  {
    forall i, j :: 0 <= i < j < |rows| && rows[i].template.Some? && rows[i].template == rows[j].template
      ==> rows[i].applicationIndex != rows[j].applicationIndex
  }

  /** The one-to-one link between an application and its issuance. */
  predicate OnePerApplication(rows: seq<Issuance>)
  {
    forall i, j :: 0 <= i < j < |rows| ==> rows[i].application != rows[j].application
  }

  predicate IssuancesValid(rows: seq<Issuance>, apps: set<Id>)
  {
    && (forall k :: 0 <= k < |rows| ==> rows[k].application in apps)
    && UniqueIndices(rows)
    && OnePerApplication(rows)
  }

  /** The `unique` constraint on `user.did` (entities/user.ts); users
      without a DID never collide. */
  predicate UniqueDids(users: map<Id, User>)
  {
    forall a, b | a in users && b in users && users[a].did.Some? && users[a].did == users[b].did :: a == b
  }

  /** Some stored user holds the DID. */
  predicate DidTaken(users: map<Id, User>, did: string)
  {
    exists k | k in users :: users[k].did == Some(did)
  }

  /** The user holding a DID, when there is one (unique by `UniqueDids`). */
  ghost function HolderOf(users: map<Id, User>, did: string): (k: Id)
    requires DidTaken(users, did)
    ensures k in users && users[k].did == Some(did)
  {
    var k :| k in users && users[k].did == Some(did); k
  }

  /** `usersService.findOne({did})`. */
  method FindUserByDid(db: Store, did: string) returns (u: Option<User>)
    requires db.Valid()
    ensures u.Some? ==> u.value.id in db.users && db.users[u.value.id] == u.value && u.value.did == Some(did)
    ensures u.None? ==> forall k | k in db.users :: db.users[k].did != Some(did)
  {
    var keys := db.users.Keys;
    while keys != {}
      invariant keys <= db.users.Keys
      invariant forall k | k in db.users && k !in keys :: db.users[k].did != Some(did)
      decreases |keys|
    {
      var k :| k in keys;
      if db.users[k].did == Some(did) {
        return Some(db.users[k]);
      }
      keys := keys - {k};
    }
    u := None;
  }

  /** `usersService.create({did})`: a user known only by its DID. */
  method CreateUserWithDid(db: Store, did: string) returns (u: User)
    requires db.Valid()
    requires forall k | k in db.users :: db.users[k].did != Some(did)
    modifies db`users
    ensures db.Valid()
    ensures u.id !in old(db.users) && u.did == Some(did)
    ensures u.email.None? && u.organization.None? && u.ownedOrganization.None? && !u.emailVerified
    ensures db.users == old(db.users)[u.id := u]
  {
    var id := FreshKey(db.users.Keys);
    u := User(id, Some(did), None, false, None, None, map[], None);
    db.users := db.users[id := u];
  }

  /** The organization a relation points at, when that row is stored. */
  function OrganizationAt(db: Store, id: Option<Id>): (org: Option<Organization>)
    reads db
    ensures org.Some? <==> id.Some? && id.value in db.organizations
    ensures org.Some? ==> org.value == db.organizations[id.value]
  {
    if id.Some? && id.value in db.organizations then Some(db.organizations[id.value]) else None
  }

  /** The issuance of application `app`, as the `credentialIssuance` relation loads it. */
  function IssuanceOf(rows: seq<Issuance>, app: Id): (r: Option<Issuance>)
    ensures r.Some? <==> HasIssuance(rows, app)
    ensures r.Some? ==> r.value in rows && r.value.application == app
  {
    if rows == [] then None
    else if rows[0].application == app then Some(rows[0])
    else
      var r := IssuanceOf(rows[1..], app);
      assert HasIssuance(rows, app) ==> HasIssuance(rows[1..], app) by {
        if HasIssuance(rows, app) {
          var k :| 0 <= k < |rows| && rows[k].application == app;
          assert rows[1..][k - 1].application == app;
        }
      }
      r
  }
}
