/** The DID controller (apps/server/src/modules/dids/dids.controller.ts):
    creating an organization's identities within its subscription limit,
    credential visibility, the ownership check in front of every
    per-identity endpoint, and the classification of wallet requests. */
module DidsController {
  import opened Common
  import opened Entities
  import opened Db

  // ---------------------------------------------------------------------
  // createIdentity
  // ---------------------------------------------------------------------

  /** The identities an organization owns (`organization.identities`). */
  function OwnedIdentities(identities: map<Id, Identity>, orgId: Id): (owned: set<Id>)
    ensures forall k :: k in owned <==> k in identities && identities[k].organization == orgId
  {
    set k | k in identities && identities[k].organization == orgId
  }

  /** The guards of `createIdentity`, on the number of identities the
      organization has, its subscription, and the aliases the identity agent
      manages: a missing subscription is dereferenced. */
  function IdentityGuard(count: nat, subscription: Option<Subscription>, aliases: set<string>, url: string): (e: Option<Error>)
    ensures e == Some(Forbidden(IdentityLimitReached)) <==> subscription.Some? && count >= subscription.value.maxIdentities
    ensures e == Some(Conflict(IdentityAlreadyExists)) <==>
      subscription.Some? && count < subscription.value.maxIdentities && Lower(url) in aliases
    ensures e.None? <==> subscription.Some? && count < subscription.value.maxIdentities && Lower(url) !in aliases
  {
    if subscription.None? then Some(ServerError("org.subscription is null"))
    else if count >= subscription.value.maxIdentities then Some(Forbidden(IdentityLimitReached))
    else if Lower(url) in aliases then Some(Conflict(IdentityAlreadyExists))
    else None
  }

  /** Once a url is registered, any spelling of it that lowercases the same
      way conflicts, unless the limit is hit first; and a full organization
      stays full whatever the alias. */
  lemma IdentityGuardAfterCreate(count: nat, subscription: Option<Subscription>, aliases: set<string>, url: string, url2: string)
    requires Lower(url2) == Lower(url)
    ensures subscription.Some? && count + 1 < subscription.value.maxIdentities ==>
      IdentityGuard(count + 1, subscription, aliases + {Lower(url)}, url2) == Some(Conflict(IdentityAlreadyExists))
    ensures subscription.Some? && count >= subscription.value.maxIdentities ==>
      IdentityGuard(count + 1, subscription, aliases + {Lower(url)}, url2) == Some(Forbidden(IdentityLimitReached))
  {
  }

  /** `createIdentity`: check the limit and the alias, register the
      lowercased url as a new DID alias (`did` is the DID the agent creates
      for it) and store the identity under it. */
  method CreateIdentity(db: Store, org: Organization, alias: string, url: string, logo: Option<string>, did: string)
    returns (r: Result<Identity>)
    requires db.Valid()
    modifies db`identities, db`didAliases
    ensures db.Valid()
    ensures var guard := IdentityGuard(|OwnedIdentities(old(db.identities), org.id)|, org.subscription, old(db.didAliases), url);
      && (guard.Some? <==> r.Err?)
      && (r.Err? ==> r.error == guard.value && db.identities == old(db.identities) && db.didAliases == old(db.didAliases))
    ensures r.Ok? ==>
      && r.value.id !in old(db.identities)
      && r.value == Identity(r.value.id, did, alias, logo, Lower(url), org.id)
      && Lower(r.value.url) == r.value.url
      && db.identities == old(db.identities)[r.value.id := r.value]
      && db.didAliases == old(db.didAliases) + {Lower(url)}
      && OwnedIdentities(db.identities, org.id) == OwnedIdentities(old(db.identities), org.id) + {r.value.id}
  {
    var count := |OwnedIdentities(db.identities, org.id)|;
    if org.subscription.None? {
      return Err(ServerError("org.subscription is null"));
    }
    if count >= org.subscription.value.maxIdentities {
      return Err(Forbidden(IdentityLimitReached));
    }
    var lowered := Lower(url);
    if lowered in db.didAliases {
      return Err(Conflict(IdentityAlreadyExists));
    }
    db.didAliases := db.didAliases + {lowered};
    var id := FreshKey(db.identities.Keys);
    var identity := Identity(id, did, alias, logo, lowered, org.id);
    db.identities := db.identities[id := identity];
    LowerIdempotent(url);
    r := Ok(identity);
  }

  // ---------------------------------------------------------------------
  // toggleCredentialVisibility
  // ---------------------------------------------------------------------

  function Toggle(c: OrgCredential): (t: OrgCredential)
    ensures t.discoverable == !c.discoverable
  {
    c.(discoverable := !c.discoverable)
  }

  /** Toggling twice restores the credential. */
  lemma ToggleInvolution(c: OrgCredential)
    ensures Toggle(Toggle(c)) == c
    ensures Toggle(c).id == c.id && Toggle(c).vcType == c.vcType && Toggle(c).raw == c.raw
  {
  }

  /** `toggleCredentialVisibility`: store the negation of the stored flag. */
  method ToggleCredentialVisibility(db: Store, id: Id) returns (r: Result<OrgCredential>)
    requires db.Valid()
    modifies db`orgCredentials
    ensures db.Valid()
    ensures id !in old(db.orgCredentials) ==> r.Err? && db.orgCredentials == old(db.orgCredentials)
    ensures id in old(db.orgCredentials) ==>
      && r == Ok(Toggle(old(db.orgCredentials)[id]))
      && db.orgCredentials == old(db.orgCredentials)[id := r.value]
  {
    if id !in db.orgCredentials {
      return Err(ServerError("_credential is null"));
    }
    var credential := db.orgCredentials[id];
    var updated := credential.(discoverable := !credential.discoverable);
    db.orgCredentials := db.orgCredentials[id := updated];
    r := Ok(updated);
  }

  // ---------------------------------------------------------------------
  // Ownership
  // ---------------------------------------------------------------------

  /** The ownership check as written: the search of the organization's
      identities compares against `identity.id` before the null check,
      so a missing identity is dereferenced as soon as the organization has an
      identity to compare it with. */
  function OwnershipAsWritten(owned: set<Id>, identity: Option<Identity>): (r: Result<Identity>)
    ensures r.Ok? <==> identity.Some? && identity.value.id in owned
    ensures r.Ok? ==> r.value == identity.value
    ensures identity.None? && owned != {} ==> r.Err? && r.error.ServerError?
    ensures (identity.Some? || owned == {}) && r.Err? ==> r.error == NotFound(NoOwnership)
  {
    if identity.None? then
      if owned != {} then Err(ServerError("Cannot read properties of null (reading 'id')"))
      else Err(NotFound(NoOwnership))
    else if identity.value.id !in owned then Err(NotFound(NoOwnership))
    else Ok(identity.value)
  }

  /** The ownership check as intended: a missing identity, like a foreign
      one, is NotFound(NO_OWNERSHIP). */
  function Ownership(owned: set<Id>, identity: Option<Identity>): (r: Result<Identity>)
    ensures r.Ok? <==> identity.Some? && identity.value.id in owned
    ensures r.Ok? ==> r.value == identity.value
    ensures r.Err? ==> r.error == NotFound(NoOwnership)
  {
    if identity.None? || identity.value.id !in owned then Err(NotFound(NoOwnership))
    else Ok(identity.value)
  }

  /** The two checks differ exactly on a missing identity of an organization
      that owns at least one identity. */
  lemma OwnershipDiscrepancy(owned: set<Id>, identity: Option<Identity>)
    ensures OwnershipAsWritten(owned, identity) != Ownership(owned, identity) <==> identity.None? && owned != {}
  {
  }

  /** The input that shows it: an organization owning `i1` asks about an
      identity id that does not exist. */
  lemma MissingIdentityIsServerError()
    ensures OwnershipAsWritten({"i1"}, None).Err? && OwnershipAsWritten({"i1"}, None).error.ServerError?
    ensures Ownership({"i1"}, None) == Err(NotFound(NoOwnership))
  {
  }

  /** The ownership check in front of `processIdentityRequest` and
      `deleteIdentityCredential`, as the code runs it: the identity
      `identityId` if stored, searched for among `org`'s identities. */
  function OwnedIdentity(db: Store, orgId: Id, identityId: Id): (r: Result<Identity>)
    requires db.Valid()
    reads db
    ensures r.Ok? <==> (identityId in db.identities && db.identities[identityId].organization == orgId)
    ensures r.Ok? ==> r.value == db.identities[identityId]
    ensures MissingDereferenced(db, orgId, identityId) ==> r.Err? && r.error.ServerError?
    ensures r.Err? && !MissingDereferenced(db, orgId, identityId) ==> r.error == NotFound(NoOwnership)
  {
    OwnershipAsWritten(OwnedIdentities(db.identities, orgId),
                       if identityId in db.identities then Some(db.identities[identityId]) else None)
  }

  /** The input on which the check as written fails with a server error:
      the identity is not stored and the organization owns some identity. */
  predicate MissingDereferenced(db: Store, orgId: Id, identityId: Id)
    reads db
  {
    identityId !in db.identities && OwnedIdentities(db.identities, orgId) != {}
  }

  // ---------------------------------------------------------------------
  // updateIdentityDto
  // ---------------------------------------------------------------------

  /** The fields of a DID's metadata an update may supply. */
  datatype IdentityPatch = IdentityPatch(name: Patch<string>, logo: Patch<Option<string>>)

  /** `updateIdentityDto`: only the owning organization may update; the
      supplied fields override the stored ones. */
  method UpdateIdentity(db: Store, org: Organization, id: Id, patch: IdentityPatch) returns (r: Result<Identity>)
    requires db.Valid()
    modifies db`identities
    ensures db.Valid()
    ensures id !in old(db.identities) ==> r.Err? && r.error.ServerError?
    ensures id in old(db.identities) && old(db.identities)[id].organization != org.id ==>
      r == Err(NotFound(OrganizationNotFound))
    ensures r.Err? ==> db.identities == old(db.identities)
    ensures r.Ok? <==> id in old(db.identities) && old(db.identities)[id].organization == org.id
    ensures r.Ok? ==>
      && var stored := old(db.identities)[id];
      && r.value == stored.(name := Patched(patch.name, stored.name), logo := Patched(patch.logo, stored.logo))
      && db.identities == old(db.identities)[id := r.value]
  {
    if id !in db.identities {
      return Err(ServerError("identity is null"));
    }
    var identity := db.identities[id];
    if identity.organization != org.id {
      return Err(NotFound(OrganizationNotFound));
    }
    var updated := identity.(name := Patched(patch.name, identity.name), logo := Patched(patch.logo, identity.logo));
    db.identities := db.identities[id := updated];
    r := Ok(updated);
  }

  // ---------------------------------------------------------------------
  // Credentials an identity holds
  // ---------------------------------------------------------------------

  const OpenBadgeType := "OpenBadgeCredential"

  /** `identity.identityCredentials`, in whatever order the store returns them. */
  method CredentialsOf(db: Store, identityId: Id) returns (creds: seq<OrgCredential>)
    ensures forall c :: c in creds <==> exists k :: k in db.orgCredentials && db.orgCredentials[k] == c && c.identity == identityId
  {
    creds := [];
    var keys := db.orgCredentials.Keys;
    while keys != {}
      invariant keys <= db.orgCredentials.Keys
      invariant forall c :: c in creds <==> exists k :: k in db.orgCredentials && k !in keys && db.orgCredentials[k] == c && c.identity == identityId
      decreases |keys|
    {
      var k :| k in keys;
      if db.orgCredentials[k].identity == identityId {
        creds := creds + [db.orgCredentials[k]];
      }
      keys := keys - {k};
    }
  }

  /** `credentialsRaw.filter((c) => !c.decoded.vc.type.includes('OpenBadgeCredential'))`. */
  function Presentable(creds: seq<OrgCredential>): (r: seq<OrgCredential>)
    ensures forall c :: c in r <==> c in creds && OpenBadgeType !in c.vcType
    ensures |r| <= |creds|
  {
    if creds == [] then []
    else
      var rest := Presentable(creds[1..]);
      assert forall c :: c in creds <==> c == creds[0] || c in creds[1..];
      if OpenBadgeType in creds[0].vcType then rest else [creds[0]] + rest
  }

  /** Filtering twice is filtering once, and the order of what is kept is
      the order held. */
  lemma {:induction false} PresentableIdempotent(creds: seq<OrgCredential>)
    ensures Presentable(Presentable(creds)) == Presentable(creds)
  {
    if creds != [] {
      PresentableIdempotent(creds[1..]);
      if OpenBadgeType !in creds[0].vcType {
        assert ([creds[0]] + Presentable(creds[1..]))[1..] == Presentable(creds[1..]);
      }
    }
  }

  /** What `processSiopRequest` hands to the wallet: the raw JWTs of the
      presentable credentials, in order. */
  function SiopCredentials(creds: seq<OrgCredential>): (raws: seq<string>)
    ensures |raws| == |Presentable(creds)|
    ensures forall i :: 0 <= i < |raws| ==> raws[i] == Presentable(creds)[i].raw
  {
    var p := Presentable(creds);
    seq(|p|, i requires 0 <= i < |p| => p[i].raw)
  }

  /** `c.vc.type[1] ?? c.vc.type[0]`: the specific type after the generic
      `VerifiableCredential`, or the only type there is. */
  function OfferedName(vcType: seq<string>): (name: Option<string>)
    ensures |vcType| >= 2 ==> name == Some(vcType[1])
    ensures |vcType| == 1 ==> name == Some(vcType[0])
    ensures name.None? <==> vcType == []
  {
    if |vcType| >= 2 then Some(vcType[1])
    else if |vcType| == 1 then Some(vcType[0])
    else None
  }

  // ---------------------------------------------------------------------
  // processIdentityRequest
  // ---------------------------------------------------------------------

  datatype Variant = IdRequest | VpRequest | VcOffer

  const SiopScheme := "siopv2://"
  const CredentialOfferScheme := "openid-credential-offer://"

  /** The classification by scheme; `responseType` is what the wallet
      library reads from a SIOP request. */
  function Classify(request: string, responseType: string): (v: Option<Variant>)
    ensures v.None? <==> !StartsWith(request, SiopScheme) && !StartsWith(request, CredentialOfferScheme)
    ensures v == Some(VcOffer) <==> StartsWith(request, CredentialOfferScheme)
    ensures v == Some(IdRequest) <==> StartsWith(request, SiopScheme) && responseType == "id_token"
  {
    SchemesExclusive(request);
    if StartsWith(request, SiopScheme) then Some(if responseType == "id_token" then IdRequest else VpRequest)
    else if StartsWith(request, CredentialOfferScheme) then Some(VcOffer)
    else None
  }

  /** No request carries both schemes, so the classification is unambiguous. */
  lemma SchemesExclusive(request: string)
    ensures StartsWith(request, SiopScheme) ==> !StartsWith(request, CredentialOfferScheme)
  {
    if StartsWith(request, SiopScheme) {
      assert request[..|SiopScheme|][0] == 's';
      assert |request| < |CredentialOfferScheme| || request[..|CredentialOfferScheme|][0] == 's';
    }
  }

  datatype RequestInfo = RequestInfo(variant: Variant, credentialsOffered: seq<Option<string>>)

  /** `processIdentityRequest`: check ownership, then classify the request.
      A presentation request offers the names of the credentials the wallet
      library picks (`select`) from the identity's presentable credentials;
      a credential offer lists the offer's configuration ids. */
  method ProcessIdentityRequest(db: Store, org: Organization, identityId: Id, request: string, responseType: string,
                                select: seq<OrgCredential> -> seq<seq<string>>, configurationIds: seq<string>)
    returns (r: Result<RequestInfo>)
    requires db.Valid()
    ensures MissingDereferenced(db, org.id, identityId) ==> r.Err? && r.error.ServerError?
    ensures OwnedIdentity(db, org.id, identityId).Err? && !MissingDereferenced(db, org.id, identityId) ==>
      r == Err(NotFound(NoOwnership))
    ensures OwnedIdentity(db, org.id, identityId).Ok? && Classify(request, responseType).None? ==>
      r == Err(BadRequest(BadOidCredOffer))
    ensures r.Ok? <==> OwnedIdentity(db, org.id, identityId).Ok? && Classify(request, responseType).Some?
    ensures r.Ok? ==> Some(r.value.variant) == Classify(request, responseType)
    ensures r.Ok? && r.value.variant != VpRequest ==>
      r.value.credentialsOffered == if r.value.variant == VcOffer then Wrap(configurationIds) else []
    ensures r.Ok? && r.value.variant == VpRequest ==>
      exists held: seq<OrgCredential> ::
        && (forall c :: c in held <==> exists k :: k in db.orgCredentials && db.orgCredentials[k] == c && c.identity == identityId)
        && r.value.credentialsOffered == OfferedNames(select(Presentable(held)))
  {
    var identity := OwnedIdentity(db, org.id, identityId);
    if identity.Err? {
      return Err(identity.error);
    }
    var credentialsRaw := CredentialsOf(db, identityId);
    var credentials := Presentable(credentialsRaw);
    var requestVariant: Variant;
    var credentialsOffered: seq<Option<string>> := [];
    if StartsWith(request, SiopScheme) {
      requestVariant := if responseType == "id_token" then IdRequest else VpRequest;
      if requestVariant == VpRequest {
        credentialsOffered := OfferedNames(select(credentials));
      }
    } else if StartsWith(request, CredentialOfferScheme) {
      requestVariant := VcOffer;
      credentialsOffered := Wrap(configurationIds);
    } else {
      return Err(BadRequest(BadOidCredOffer));
    }
    r := Ok(RequestInfo(requestVariant, credentialsOffered));
  }

  function Wrap(ids: seq<string>): (r: seq<Option<string>>)
    ensures |r| == |ids| && forall i :: 0 <= i < |ids| ==> r[i] == Some(ids[i])
  {
    seq(|ids|, i requires 0 <= i < |ids| => Some(ids[i]))
  }

  /** `credentialsRequired.map((c) => c.vc.type[1] ?? c.vc.type[0])`. */
  function OfferedNames(types: seq<seq<string>>): (r: seq<Option<string>>)
    ensures |r| == |types| && forall i :: 0 <= i < |types| ==> r[i] == OfferedName(types[i])
  {
    seq(|types|, i requires 0 <= i < |types| => OfferedName(types[i]))
  }

  // ---------------------------------------------------------------------
  // deleteIdentityCredential
  // ---------------------------------------------------------------------

  /** `deleteIdentityCredential`: check ownership, then delete the
      credential only if the identity holds it. The handler returns what
      `findByIdAndDelete` resolves to, which is nothing. */
  method DeleteIdentityCredential(db: Store, org: Organization, identityId: Id, id: Id) returns (r: Result<()>)
    requires db.Valid()
    modifies db`orgCredentials
    ensures db.Valid()
    ensures old(MissingDereferenced(db, org.id, identityId)) ==> r.Err? && r.error.ServerError?
    ensures old(OwnedIdentity(db, org.id, identityId)).Err? && !old(MissingDereferenced(db, org.id, identityId)) ==>
      r == Err(NotFound(NoOwnership))
    ensures old(OwnedIdentity(db, org.id, identityId)).Ok? ==>
      (r.Ok? <==> id in old(db.orgCredentials) && old(db.orgCredentials)[id].identity == identityId)
    ensures old(OwnedIdentity(db, org.id, identityId)).Ok? && r.Err? ==> r == Err(NotFound(CredNotFound))
    ensures r.Err? ==> db.orgCredentials == old(db.orgCredentials)
    ensures r.Ok? ==> db.orgCredentials == old(db.orgCredentials) - {id}
  {
    var identity := OwnedIdentity(db, org.id, identityId);
    if identity.Err? {
      return Err(identity.error);
    }
    var held := CredentialsOf(db, identityId);
    assert id in db.orgCredentials && db.orgCredentials[id].identity == identityId ==> db.orgCredentials[id] in held;
    if !(exists c :: c in held && c.id == id) {
      return Err(NotFound(CredNotFound));
    }
    var c :| c in held && c.id == id;
    var k :| k in db.orgCredentials && db.orgCredentials[k] == c && c.identity == identityId;
    assert k == id;
    db.orgCredentials := db.orgCredentials - {id};
    r := Ok(());
  }
}
