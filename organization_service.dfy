/** The organization store's update
    (apps/server/src/modules/organization/organization.service.ts): supplied
    fields override stored ones, and a new contact e-mail revokes its
    verification. */
module OrganizationService {
  import opened Common
  import opened Entities
  import opened Db

  /** The columns an update may supply. */
  datatype OrgPatch = OrgPatch(
    name: Patch<string>,
    logo: Patch<Option<string>>,
    contactEmail: Patch<Option<string>>,
    emailVerified: Patch<bool>,
    ownedBy: Patch<Option<Id>>,
    description: Patch<Option<string>>,
    organizationUrl: Patch<Option<string>>,
    country: Patch<Option<string>>,
    industry: Patch<Option<string>>)

  const NoOrgChange := OrgPatch(Keep, Keep, Keep, Keep, Keep, Keep, Keep, Keep, Keep)

  /** The update supplies a contact e-mail (a truthy one) other than the stored one. */
  predicate ChangesContactEmail(current: Organization, entity: OrgPatch)
  {
    entity.contactEmail.Set? && Truthy(entity.contactEmail.value) && current.contactEmail != entity.contactEmail.value
  }

  /** The caller's update after `findByIdAndUpdate` wrote into it: a changed
      contact e-mail forces `emailVerified` to false; otherwise the update is
      untouched. */
  function WithVerificationReset(current: Organization, entity: OrgPatch): (r: OrgPatch)
    ensures ChangesContactEmail(current, entity) ==> r == entity.(emailVerified := Set(false))
    ensures !ChangesContactEmail(current, entity) ==> r == entity
  {
    if ChangesContactEmail(current, entity) then entity.(emailVerified := Set(false)) else entity
  }

  /** `{...current, ...entity}`. */
  function MergeOrganization(current: Organization, p: OrgPatch): (r: Organization)
    ensures r.id == current.id && r.subscription == current.subscription
  {
    current.(
      name := Patched(p.name, current.name),
      logo := Patched(p.logo, current.logo),
      contactEmail := Patched(p.contactEmail, current.contactEmail),
      emailVerified := Patched(p.emailVerified, current.emailVerified),
      ownedBy := Patched(p.ownedBy, current.ownedBy),
      description := Patched(p.description, current.description),
      organizationUrl := Patched(p.organizationUrl, current.organizationUrl),
      country := Patched(p.country, current.country),
      industry := Patched(p.industry, current.industry))
  }

  /** An update supplying nothing changes nothing, and each supplied field
      replaces the stored one while every other field is kept. */
  lemma MergeOrganizationOverrides(current: Organization, p: OrgPatch)
    ensures MergeOrganization(current, NoOrgChange) == current
    ensures var r := MergeOrganization(current, p);
      && (p.name.Set? ==> r.name == p.name.value) && (p.name.Keep? ==> r.name == current.name)
      && (p.contactEmail.Set? ==> r.contactEmail == p.contactEmail.value)
      && (p.contactEmail.Keep? ==> r.contactEmail == current.contactEmail)
      && (p.emailVerified.Set? ==> r.emailVerified == p.emailVerified.value)
      && (p.emailVerified.Keep? ==> r.emailVerified == current.emailVerified)
      && (p.ownedBy.Set? ==> r.ownedBy == p.ownedBy.value) && (p.ownedBy.Keep? ==> r.ownedBy == current.ownedBy)
      && (p.description.Set? ==> r.description == p.description.value)
      && (p.description.Keep? ==> r.description == current.description)
      && (p.logo.Set? ==> r.logo == p.logo.value) && (p.logo.Keep? ==> r.logo == current.logo)
      && (p.organizationUrl.Set? ==> r.organizationUrl == p.organizationUrl.value)
      && (p.organizationUrl.Keep? ==> r.organizationUrl == current.organizationUrl)
      && (p.country.Set? ==> r.country == p.country.value) && (p.country.Keep? ==> r.country == current.country)
      && (p.industry.Set? ==> r.industry == p.industry.value) && (p.industry.Keep? ==> r.industry == current.industry)
      && r.id == current.id && r.subscription == current.subscription
  {
  }

  /** The effect on `emailVerified`: a new truthy contact e-mail always
      leaves it false, even when the update asks for true; otherwise it is
      what the update supplies, or the stored value. */
  lemma VerificationAfterUpdate(current: Organization, entity: OrgPatch)
    ensures var r := MergeOrganization(current, WithVerificationReset(current, entity));
      && (ChangesContactEmail(current, entity) ==> !r.emailVerified && r.contactEmail == entity.contactEmail.value)
      && (!ChangesContactEmail(current, entity) ==> r.emailVerified == Patched(entity.emailVerified, current.emailVerified))
      && (entity.contactEmail.Keep? && entity.emailVerified.Keep? ==> r.emailVerified == current.emailVerified)
  {
  }

  /** Re-sending the stored contact e-mail does not revoke its verification. */
  lemma SameEmailKeepsVerification(current: Organization)
    ensures var entity := NoOrgChange.(contactEmail := Set(current.contactEmail));
      MergeOrganization(current, WithVerificationReset(current, entity)) == current
  {
  }

  /** `findByIdAndUpdate`: returns the saved row and the caller's update as
      the method left it (it writes the reset into the caller's object). */
  method FindByIdAndUpdate(db: Store, id: Id, entity: OrgPatch) returns (r: Result<Organization>, written: OrgPatch)
    requires db.Valid()
    modifies db`organizations
    ensures db.Valid()
    ensures id !in old(db.organizations) ==> r.Err? && written == entity && db.organizations == old(db.organizations)
    ensures id in old(db.organizations) ==>
      && written == WithVerificationReset(old(db.organizations)[id], entity)
      && r == Ok(MergeOrganization(old(db.organizations)[id], written))
      && db.organizations == old(db.organizations)[id := r.value]
  {
    written := entity;
    if id !in db.organizations {
      return Err(ServerError("current is null")), written;
    }
    var current := db.organizations[id];
    if written.contactEmail.Set? && Truthy(written.contactEmail.value) && current.contactEmail != written.contactEmail.value {
      written := written.(emailVerified := Set(false));
    }
    var toSave := MergeOrganization(current, written);
    db.organizations := db.organizations[id := toSave];
    r := Ok(toSave);
  }
}
