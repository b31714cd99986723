/** The organization controller
    (apps/server/src/modules/organization/organization.controller.ts):
    handing ownership to another DID, creating an organization for a user,
    the profile update limit, usage metering and support e-mail
    verification. */
module OrganizationController {
  import opened Common
  import opened Entities
  import opened Db
  import opened OrganizationService
  import UsersController

  // ---------------------------------------------------------------------
  // rotateOwner
  // ---------------------------------------------------------------------

  const OrgRotationScope := "organization-rotation"

  /** The checks on an ownership-rotation token: the scope is read first
      (a token without claims is dereferenced), then the expiry. */
  function RotateOwnerGuard(t: TokenCheck): (e: Option<Error>)
    ensures t.payload.Some? && t.payload.value.scope != Some(OrgRotationScope) ==> e == Some(BadRequest(OrgInvalidScope))
    ensures t.payload.Some? && t.payload.value.scope == Some(OrgRotationScope) && t.expired ==> e == Some(BadRequest(OrgExpiredToken))
    ensures e.None? <==> t.payload.Some? && t.payload.value.scope == Some(OrgRotationScope) && !t.expired
  {
    if t.payload.None? then Some(ServerError("payload is null"))
    else if t.payload.value.scope != Some(OrgRotationScope) then Some(BadRequest(OrgInvalidScope))
    else if t.expired then Some(BadRequest(OrgExpiredToken))
    else None
  }

  /** The two rotation endpoints check in opposite orders: an expired token
      with the wrong scope is reported as expired by the user's key rotation
      and as mis-scoped by the owner rotation. */
  lemma RotationGuardsDisagreeOnOrder(claims: TokenClaims)
    requires claims.scope != Some("rotation") && claims.scope != Some(OrgRotationScope)
    ensures UsersController.RotationGuard(TokenCheck(Some(claims), true)) == Some(BadRequest(UserExpiredToken))
    ensures RotateOwnerGuard(TokenCheck(Some(claims), true)) == Some(BadRequest(OrgInvalidScope))
  {
  }

  /** The organization a rotation token names and its stored owner, when both exist. */
  function RotationTarget(db: Store, claims: TokenClaims): (target: Option<(Id, Id)>)
    reads db
    ensures target.Some? <==>
      && claims.id.Some? && claims.id.value in db.organizations
      && db.organizations[claims.id.value].ownedBy.Some?
      && db.organizations[claims.id.value].ownedBy.value in db.users
    ensures target.Some? ==> target.value == (claims.id.value, db.organizations[claims.id.value].ownedBy.value)
  {
    if claims.id.Some? && claims.id.value in db.organizations
      && db.organizations[claims.id.value].ownedBy.Some?
      && db.organizations[claims.id.value].ownedBy.value in db.users
    then Some((claims.id.value, db.organizations[claims.id.value].ownedBy.value))
    else None
  }

  /** The users once `owner` no longer owns an organization. */
  function Demoted(users: map<Id, User>, owner: Id): (r: map<Id, User>)
    requires owner in users
    ensures r.Keys == users.Keys && r[owner].ownedOrganization.None?
  {
    users[owner := users[owner].(ownedOrganization := None)]
  }

  /** `rotateOwner`: the old owner loses `ownedOrganization`, the
      organization's `ownedBy` becomes the user holding `did`, and that user
      joins the organization. When no user holds `did`, the first two writes
      have happened (with `ownedBy` cleared) before the missing user is
      dereferenced. */
  method RotateOwner(db: Store, t: TokenCheck, did: string) returns (r: Result<User>)
    requires db.Valid()
    modifies db`users, db`organizations
    ensures db.Valid()
    ensures RotateOwnerGuard(t).Some? ==>
      r == Err(RotateOwnerGuard(t).value) && db.users == old(db.users) && db.organizations == old(db.organizations)
    ensures RotateOwnerGuard(t).None? && old(RotationTarget(db, t.payload.value)).None? ==>
      r.Err? && r.error.ServerError? && db.users == old(db.users) && db.organizations == old(db.organizations)
    ensures RotateOwnerGuard(t).None? && old(RotationTarget(db, t.payload.value)).Some? ==>
      var (orgId, owner) := old(RotationTarget(db, t.payload.value)).value;
      var demoted := Demoted(old(db.users), owner);
      if !DidTaken(old(db.users), did) then
        && r.Err? && r.error.ServerError? && db.users == demoted
        && db.organizations == old(db.organizations)[orgId := old(db.organizations)[orgId].(ownedBy := None)]
      else
        var heir := old(HolderOf(db.users, did));
        && r == Ok(old(db.users)[heir])
        && db.organizations == old(db.organizations)[orgId := old(db.organizations)[orgId].(ownedBy := Some(heir))]
        && db.users == demoted[heir := demoted[heir].(organization := Some(orgId))]
  {
    var guard := RotateOwnerGuard(t);
    if guard.Some? {
      return Err(guard.value);
    }
    var target := RotationTarget(db, t.payload.value);
    if target.None? {
      return Err(ServerError("organization or its owner is null"));
    }
    var (orgId, owner) := target.value;
    var user := FindUserByDid(db, did);
    ghost var users0 := db.users;
    db.users := db.users[owner := db.users[owner].(ownedOrganization := None)];
    assert UniqueDids(db.users) by {
      assert forall k | k in db.users :: db.users[k].did == users0[k].did;
    }
    var heirId := if user.Some? then Some(user.value.id) else None;
    var org := db.organizations[orgId];
    var updated, _ := OrganizationService.FindByIdAndUpdate(db, orgId, NoOrgChange.(ownedBy := Set(heirId)));
    assert updated == Ok(org.(ownedBy := heirId));
    if user.None? {
      return Err(ServerError("user is null"));
    }
    assert user.value.id == HolderOf(users0, did);
    ghost var users1 := db.users;
    db.users := db.users[user.value.id := db.users[user.value.id].(organization := Some(orgId))];
    assert UniqueDids(db.users) by {
      assert forall k | k in db.users :: db.users[k].did == users1[k].did;
    }
    r := Ok(user.value);
  }

  // ---------------------------------------------------------------------
  // createOrganization
  // ---------------------------------------------------------------------

  /** `createOrganization`: the user must exist; the organization is created
      with the user as owner and the e-mail as contact, and the user joins it
      under that e-mail. */
  method CreateOrganization(db: Store, userId: Id, orgName: string, logo: Option<string>, organizationUrl: Option<string>,
                            email: string, country: Option<string>, industry: Option<string>)
    returns (r: Result<Organization>)
    requires db.Valid()
    modifies db`users, db`organizations
    ensures db.Valid()
    ensures userId !in old(db.users) <==> r == Err(BadRequest(NoUser))
    ensures userId in old(db.users) <==> r.Ok?
    ensures r.Err? ==> db.users == old(db.users) && db.organizations == old(db.organizations)
    ensures r.Ok? ==>
      && r.value.id !in old(db.organizations)
      && r.value == Organization(r.value.id, orgName, logo, Some(email), false, Some(userId), None, organizationUrl, country, industry, None)
      && db.organizations == old(db.organizations)[r.value.id := r.value]
      && db.users == old(db.users)[userId := old(db.users)[userId].(email := Some(email), organization := Some(r.value.id))]
  {
    if userId !in db.users {
      return Err(BadRequest(NoUser));
    }
    db.users := db.users[userId := db.users[userId].(email := Some(email))];
    var id := FreshKey(db.organizations.Keys);
    var organization := Organization(id, orgName, logo, Some(email), false, Some(userId), None, organizationUrl, country, industry, None);
    db.organizations := db.organizations[id := organization];
    db.users := db.users[userId := db.users[userId].(organization := Some(id), email := Some(email))];
    r := Ok(organization);
  }

  // ---------------------------------------------------------------------
  // updateOrganizationProfile
  // ---------------------------------------------------------------------

  const MaxDescriptionLength := 600

  predicate DescriptionTooLong(body: OrgPatch)
  {
    body.description.Set? && Truthy(body.description.value) && |body.description.value.value| > MaxDescriptionLength
  }

  /** The limit is inclusive: 600 characters pass, 601 do not. */
  lemma DescriptionLimitIsInclusive(s: string)
    ensures |s| <= MaxDescriptionLength ==> !DescriptionTooLong(NoOrgChange.(description := Set(Some(s))))
    ensures |s| > MaxDescriptionLength ==> DescriptionTooLong(NoOrgChange.(description := Set(Some(s))))
  {
  }

  /** `updateOrganizationProfile`: refuse an over-long description, else
      update the caller's organization. */
  method UpdateOrganizationProfile(db: Store, orgId: Id, body: OrgPatch) returns (r: Result<Organization>)
    requires db.Valid()
    modifies db`organizations
    ensures db.Valid()
    ensures DescriptionTooLong(body) ==>
      r == Err(BadRequestMessage("Description must not be more than 600 characters.")) && db.organizations == old(db.organizations)
    ensures !DescriptionTooLong(body) && orgId in old(db.organizations) ==>
      var current := old(db.organizations)[orgId];
      && r == Ok(MergeOrganization(current, WithVerificationReset(current, body)))
      && db.organizations == old(db.organizations)[orgId := r.value]
    ensures orgId !in old(db.organizations) ==> r.Err? && db.organizations == old(db.organizations)
  {
    if DescriptionTooLong(body) {
      return Err(BadRequestMessage("Description must not be more than 600 characters."));
    }
    var updated, _ := OrganizationService.FindByIdAndUpdate(db, orgId, body);
    r := updated;
  }

  // ---------------------------------------------------------------------
  // getUsage
  // ---------------------------------------------------------------------

  /** `reduce((total, current) => total + current.quantity, 0)`. */
  function Sum(xs: seq<int>): int
  {
    if xs == [] then 0 else Sum(xs[..|xs| - 1]) + xs[|xs| - 1]
  }

  /** Summing two invoices' lines is summing each and adding. */
  lemma {:induction false} SumConcat(xs: seq<int>, ys: seq<int>)
    ensures Sum(xs + ys) == Sum(xs) + Sum(ys)
    decreases |ys|
  {
    if ys != [] {
      assert (xs + ys)[..|xs + ys| - 1] == xs + ys[..|ys| - 1];
      SumConcat(xs, ys[..|ys| - 1]);
    } else {
      assert xs + ys == xs;
    }
  }

  /** The row belongs to a stored template of the organization. */
  predicate IssuedBy(row: Issuance, templates: map<Id, Template>, orgId: Id)
  {
    row.template.Some? && row.template.value in templates && templates[row.template.value].organization == Some(orgId)
  }

  /** The number of issuances for the organization's templates. */
  function IssuedCount(rows: seq<Issuance>, templates: map<Id, Template>, orgId: Id): (n: nat)
    ensures n <= |rows|
  {
    if rows == [] then 0
    else IssuedCount(rows[..|rows| - 1], templates, orgId) + if IssuedBy(rows[|rows| - 1], templates, orgId) then 1 else 0
  }

  /** Allocating issuance rows raises the organization's usage by the
      number of them that are its own. */
  lemma {:induction false} IssuedCountConcat(rows: seq<Issuance>, added: seq<Issuance>, templates: map<Id, Template>, orgId: Id)
    ensures IssuedCount(rows + added, templates, orgId) == IssuedCount(rows, templates, orgId) + IssuedCount(added, templates, orgId)
    decreases |added|
  {
    if added != [] {
      assert (rows + added)[..|rows + added| - 1] == rows + added[..|added| - 1];
      IssuedCountConcat(rows, added[..|added| - 1], templates, orgId);
    } else {
      assert rows + added == rows;
    }
  }

  const DefaultMaxCredentials := 5

  datatype Usage = Usage(usage: int, max: int)

  /** `getUsage`: a subscribed organization's usage is the sum of its
      upcoming invoice's line quantities (`invoiceQuantities`, read from the
      billing provider); otherwise it is the number of credentials issued
      from its templates. The cap is the subscription's, or 5. */
  method GetUsage(db: Store, user: User, invoiceQuantities: seq<int>) returns (r: Result<Usage>)
    ensures OrganizationAt(db, user.organization).None? <==> r.Err?
    ensures r.Ok? ==>
      var org := OrganizationAt(db, user.organization).value;
      var subscription := org.subscription;
      && r.value.usage == (if subscription.Some? && Truthy(subscription.value.subscriptionId) then Sum(invoiceQuantities)
                           else IssuedCount(db.issuances, db.templates, org.id))
      && r.value.max == (if subscription.Some? && subscription.value.maxCredentials.Some? then subscription.value.maxCredentials.value
                         else DefaultMaxCredentials)
  {
    var organization := OrganizationAt(db, user.organization);
    if organization.None? {
      return Err(ServerError("user.organization is null"));
    }
    var subscription := organization.value.subscription;
    var usageTotal := 0;
    if subscription.Some? && Truthy(subscription.value.subscriptionId) {
      var i := 0;
      while i < |invoiceQuantities|
        invariant 0 <= i <= |invoiceQuantities|
        invariant usageTotal == Sum(invoiceQuantities[..i])
      {
        assert invoiceQuantities[..i + 1][..i] == invoiceQuantities[..i];
        usageTotal := usageTotal + invoiceQuantities[i];
        i := i + 1;
      }
      assert invoiceQuantities[..i] == invoiceQuantities;
    } else {
      usageTotal := IssuedCount(db.issuances, db.templates, organization.value.id);
    }
    var max := if subscription.Some? && subscription.value.maxCredentials.Some? then subscription.value.maxCredentials.value
               else DefaultMaxCredentials;
    r := Ok(Usage(usageTotal, max));
  }

  // ---------------------------------------------------------------------
  // verifySupportEmailToken
  // ---------------------------------------------------------------------

  /** The checks on an organization e-mail verification token, in order:
      expiry, scope, context. */
  function SupportEmailGuard(t: TokenCheck): (e: Option<Error>)
    ensures t.expired ==> e == Some(BadRequest(OrgExpiredToken))
    ensures !t.expired && t.payload.Some? ==>
      var c := t.payload.value;
      && (c.scope != Some("email-verification") ==> e == Some(BadRequest(OrgInvalidScope)))
      && (c.scope == Some("email-verification") && c.context != Some("org") ==> e == Some(BadRequest(OrgInvalidContext)))
    ensures e.None? <==> (
      && !t.expired && t.payload.Some?
      && t.payload.value.scope == Some("email-verification") && t.payload.value.context == Some("org"))
  {
    if t.expired then Some(BadRequest(OrgExpiredToken))
    else if t.payload.None? then Some(ServerError("payload is null"))
    else if t.payload.value.scope != Some("email-verification") then Some(BadRequest(OrgInvalidScope))
    else if t.payload.value.context != Some("org") then Some(BadRequest(OrgInvalidContext))
    else None
  }

  /** A user's e-mail verification token is never accepted for an
      organization, nor the other way round. */
  lemma VerificationContextsAreSeparate(t: TokenCheck, userId: Id)
    ensures !(SupportEmailGuard(t).None? && UsersController.EmailVerificationGuard(t, userId).None?)
  {
  }

  /** `verifySupportEmailToken`: only a token passing every check marks the
      named organization's contact e-mail verified. */
  method VerifySupportEmailToken(db: Store, t: TokenCheck) returns (r: Result<()>)
    requires db.Valid()
    modifies db`organizations
    ensures db.Valid()
    ensures SupportEmailGuard(t).Some? ==> r == Err(SupportEmailGuard(t).value) && db.organizations == old(db.organizations)
    ensures SupportEmailGuard(t).None? && !(t.payload.value.id.Some? && t.payload.value.id.value in old(db.organizations)) ==>
      r.Err? && r.error.ServerError? && db.organizations == old(db.organizations)
    ensures SupportEmailGuard(t).None? && t.payload.value.id.Some? && t.payload.value.id.value in old(db.organizations) ==>
      var orgId := t.payload.value.id.value;
      && r.Ok?
      && db.organizations == old(db.organizations)[orgId := old(db.organizations)[orgId].(emailVerified := true)]
  {
    var guard := SupportEmailGuard(t);
    if guard.Some? {
      return Err(guard.value);
    }
    var orgId := t.payload.value.id;
    if orgId.None? || orgId.value !in db.organizations {
      return Err(ServerError("org is null"));
    }
    var updated, _ := OrganizationService.FindByIdAndUpdate(db, orgId.value, NoOrgChange.(emailVerified := Set(true)));
    r := Ok(());
  }
}
