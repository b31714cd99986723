/** The OpenID-for-Verifiable-Credentials controller
    (apps/server/src/modules/oid4vc/oid4vc.controller.ts): the SIOP request,
    the credential offer, credential issuance with the claim transaction,
    and the three ways an authorization response is handled. What the
    identity provider computes (signed requests and offers, verified tokens,
    the DID a proof or a token names) arrives as parameters. */
module Oid4vcController {
  import opened Common
  import opened Entities
  import opened Db
  import opened StateCodec
  import opened CredentialAssembly
  import ApplicationsService

  // ---------------------------------------------------------------------
  // newSiopRequest
  // ---------------------------------------------------------------------

  /** The SIOP offer table after the create-or-update of `newSiopRequest`:
      an update keeps the stored presentation definition, a create starts
      from the column default `{}`. */
  function UpsertSiopOffer(offers: map<Id, SiopOffer>, id: Id, request: string, application: Option<Id>): (r: map<Id, SiopOffer>)
    ensures r.Keys == offers.Keys + {id}
    ensures r[id].request == request && r[id].application == application
    ensures SiopOffersKeyed(offers) ==> SiopOffersKeyed(r)
    ensures r[id].pex == if id in offers then offers[id].pex else JObj(map[])
    ensures forall k | k in offers && k != id :: r[k] == offers[k]
  {
    if id in offers then offers[id := offers[id].(request := request, application := application)]
    else offers[id := SiopOffer(id, request, JObj(map[]), application)]
  }

  /** Upserting never duplicates: a second request for the same session
      leaves exactly what the second request alone would have left. */
  lemma UpsertSiopOfferLastWins(offers: map<Id, SiopOffer>, id: Id, r1: string, a1: Option<Id>, r2: string, a2: Option<Id>)
    ensures UpsertSiopOffer(UpsertSiopOffer(offers, id, r1, a1), id, r2, a2) == UpsertSiopOffer(offers, id, r2, a2)
  {
  }

  /** `newSiopRequest`: build the state, let the relying party sign a request
      carrying it (`request`), and upsert the session's SIOP offer, linked to
      the application when one with that id exists. */
  method NewSiopRequest(db: Store, session: Session, applicationId: Option<string>, request: string)
    returns (state: string)
    requires db.Valid()
    modifies db`siopOffers
    ensures db.Valid()
    ensures state == EncodeState(session.id, applicationId)
    ensures var linked := if Truthy(applicationId) && applicationId.value in db.applications then applicationId else None;
      db.siopOffers == UpsertSiopOffer(old(db.siopOffers), session.id, request, linked)
  {
    state := if Truthy(applicationId) then session.id + Separator + applicationId.value else session.id;
    var application: Option<Id> := None;
    if Truthy(applicationId) && applicationId.value in db.applications {
      application := applicationId;
    }
    if session.id in db.siopOffers {
      var current := db.siopOffers[session.id];
      db.siopOffers := db.siopOffers[session.id := current.(request := request, application := application)];
    } else {
      db.siopOffers := db.siopOffers[session.id := SiopOffer(session.id, request, JObj(map[]), application)];
    }
  }

  // ---------------------------------------------------------------------
  // createCredentialOffer
  // ---------------------------------------------------------------------

  /** What `createCredentialOffer` hands back: the issuer's offer, bound to
      the application and to the caller's session as its state. */
  datatype OfferGrant = OfferGrant(offer: string, applicationId: Id, state: Id)

  /** `createCredentialOffer`: reject an application that is not approved,
      then create or overwrite the application's credential offer. A failing
      create is swallowed (`createFails`). */
  method CreateCredentialOffer(db: Store, id: Id, session: Session, offer: string, createFails: bool)
    returns (r: Result<OfferGrant>)
    requires db.Valid()
    modifies db`credOffers
    ensures db.Valid()
    ensures id !in db.applications ==> r.Err? && r.error.ServerError?
    ensures id in db.applications && db.applications[id].status != ApprovedStatus ==> r == Err(BadRequest(NotApproved))
    ensures r.Err? ==> db.credOffers == old(db.credOffers)
    ensures r.Ok? <==> (id in db.applications && db.applications[id].status == ApprovedStatus
                        && db.applications[id].template.Some? && db.applications[id].template.value in db.templates)
    ensures r.Ok? ==> r.value == OfferGrant(offer, id, session.id)
    ensures r.Ok? && (id in old(db.credOffers) || !createFails) ==> db.credOffers == old(db.credOffers)[id := CredOffer(id, offer)]
    ensures r.Ok? && id !in old(db.credOffers) && createFails ==> db.credOffers == old(db.credOffers)
  {
    if id !in db.applications {
      return Err(ServerError("application is null"));
    }
    var application := db.applications[id];
    if application.status != ApprovedStatus {
      return Err(BadRequest(NotApproved));
    }
    if application.template.None? || application.template.value !in db.templates {
      return Err(ServerError("application.template is null"));
    }
    if id !in db.credOffers {
      if !createFails {
        db.credOffers := db.credOffers[id := CredOffer(id, offer)];
      }
    } else {
      db.credOffers := db.credOffers[id := db.credOffers[id].(offer := offer)];
    }
    r := Ok(OfferGrant(offer, application.id, session.id));
  }

  /** Two offers for one application leave one record, holding the later offer. */
  lemma CredOfferUpsertLastWins(offers: map<Id, CredOffer>, id: Id, o1: string, o2: string)
    ensures offers[id := CredOffer(id, o1)][id := CredOffer(id, o2)] == offers[id := CredOffer(id, o2)]
  {
  }

  // ---------------------------------------------------------------------
  // sendCredential
  // ---------------------------------------------------------------------

  /** `req.headers.authorization?.split('Bearer ')[1]`. */
  function BearerToken(authorization: Option<string>): (token: Option<string>)
    ensures authorization.None? ==> token.None?
    ensures authorization.Some? && !Contains(authorization.value, "Bearer ") ==> token.None?
    ensures token.Some? ==> StartsWith(authorization.value, Split(authorization.value, "Bearer ")[0] + "Bearer ")
  {
    match authorization
    case None => None
    case Some(h) =>
      var parts := Split(h, "Bearer ");
      if |parts| >= 2 then
        var i := Find(h, "Bearer ").value;
        assert h[..i + 7] == parts[0] + "Bearer ";
        Some(parts[1])
      else None
  }

  /** A header `Bearer <jwt>` yields the JWT. */
  lemma BearerTokenOfHeader(jwt: string)
    requires !Contains(jwt, "Bearer ")
    ensures BearerToken(Some("Bearer " + jwt)) == Some(jwt)
  {
    var h := "Bearer " + jwt;
    assert SepAt(h, "Bearer ", 0) by {
      assert h[0..7] == "Bearer ";
    }
    assert Find(h, "Bearer ") == Some(0);
    assert h[7..] == jwt;
    NoSepFirstPiece(jwt, "Bearer ");
  }

  /** The claims of the verified access token that the handler reads. */
  datatype TokenPayload = TokenPayload(applicationId: Option<Id>, state: string)

  /** The credential handed to the signer. */
  datatype IssuedCredential = IssuedCredential(
    recipientDid: string,
    status: StatusEntry,
    expiryDate: int,
    body: map<string, Json>,
    badge: bool,
    credentialId: string,
    credentialType: string,
    issuerName: Option<string>)

  /** Credential assembly once the claim is settled: the approval time and,
      for a badge or for a template without an icon, the organization must
      be present, since the code dereferences them. */
  function Assemble(app: Application, template: Template, org: Option<Organization>, index: nat, did: string, baseUri: string)
    : (r: Result<IssuedCredential>)
    ensures r.Err? <==> app.approvalTimeStamp.None? || (org.None? && (IsBadge(template) || template.icon.None?))
    ensures r.Ok? ==> r.value.recipientDid == did && r.value.badge == IsBadge(template)
    ensures r.Ok? ==> r.value.status == CredentialStatus(StatusUrl(baseUri, template.id), index)
    ensures r.Ok? ==> r.value.expiryDate == ExpiryDate(app.approvalTimeStamp.value, template.duration)
    ensures r.Ok? && IsBadge(template) ==> r.value.body == app.body && r.value.issuerName == Some(org.value.name)
    ensures r.Ok? && !IsBadge(template) ==>
      r.value.body == StandardBody(template.prefilledFields, app.body,
                                    LogoUri(template.icon, if org.Some? then org.value.logo else None))
    ensures r.Ok? ==> r.value.credentialId == "https://" + template.signingIdentityUrl + "/verify/" + app.id
  {
    var url := StatusUrl(baseUri, template.id);
    if app.approvalTimeStamp.None? then Err(ServerError("approvalTimeStamp is null"))
    else
      var expiry := ExpiryDate(app.approvalTimeStamp.value, template.duration);
      var credentialId := "https://" + template.signingIdentityUrl + "/verify/" + app.id;
      if IsBadge(template) then
        if org.None? then Err(ServerError("organization is null"))
        else Ok(IssuedCredential(did, CredentialStatus(url, index), expiry, app.body, true,
                                 credentialId, template.name, Some(org.value.name)))
      else if template.icon.None? && org.None? then Err(ServerError("organization is null"))
      else
        var logo := LogoUri(template.icon, if org.Some? then org.value.logo else None);
        Ok(IssuedCredential(did, CredentialStatus(url, index), expiry,
                            StandardBody(template.prefilledFields, app.body, logo), false,
                            credentialId, template.name, None))
  }

  /** The application a token names, if it is stored. */
  function TokenApplication(db: Store, payload: TokenPayload): Option<Application>
    reads db
  {
    if payload.applicationId.Some? && payload.applicationId.value in db.applications
    then Some(db.applications[payload.applicationId.value]) else None
  }

  /** The `let user` resolution: the user holding the DID, created when
      there is none. */
  method ResolveHolder(db: Store, did: string) returns (u: User)
    requires db.Valid()
    modifies db`users
    ensures db.Valid()
    ensures u.did == Some(did) && u.id in db.users && db.users[u.id] == u
    ensures old(HolderExists(db, did)) ==> db.users == old(db.users)
    ensures !old(HolderExists(db, did)) ==> u.id !in old(db.users) && db.users == old(db.users)[u.id := u]
  {
    var found := FindUserByDid(db, did);
    if found.Some? {
      return found.value;
    }
    u := CreateUserWithDid(db, did);
  }

  predicate HolderExists(db: Store, did: string)
    reads db
  {
    exists k | k in db.users :: db.users[k].did == Some(did)
  }

  /** The claim transaction: set the application's bit in the template's
      status list, mark the application claimed, and save both, or neither
      when setting the bit fails. */
  method ClaimTransaction(db: Store, app: Application, template: Template, index: nat) returns (r: Result<()>)
    requires db.Valid()
    requires app.id in db.applications && db.applications[app.id] == app
    requires template.id in db.templates && db.templates[template.id] == template
    modifies db`templates, db`applications
    ensures db.Valid()
    ensures r.Ok? <==> ClaimBit(template.statusList, index).Ok?
    ensures r.Err? ==> db.templates == old(db.templates) && db.applications == old(db.applications)
    ensures r.Ok? ==>
      && db.templates == old(db.templates)[template.id := template.(statusList := ClaimBit(template.statusList, index).value)]
      && db.applications == old(db.applications)[app.id := app.(claimed := true)]
  {
    var bits := ClaimBit(template.statusList, index);
    if bits.Err? {
      return Err(bits.error);
    }
    db.templates := db.templates[template.id := template.(statusList := bits.value)];
    db.applications := db.applications[app.id := app.(claimed := true)];
    r := Ok(());
  }

  /** The application named by the token is stored, approved, has a stored
      template and an issuance: what issuance needs before the claim. */
  predicate Issuable(db: Store, p: TokenPayload)
    reads db
  {
    && TokenApplication(db, p).Some?
    && var app := TokenApplication(db, p).value;
    && app.status == ApprovedStatus
    && app.template.Some? && app.template.value in db.templates
    && IssuanceOf(db.issuances, app.id).Some?
  }

  /** `findByIdAndUpdate(application.id, {user})` for an application that
      already has its issuance: the user is linked and no row is added. */
  method LinkHolder(db: Store, appId: Id, userId: Id)
    requires db.Valid() && appId in db.applications && HasIssuance(db.issuances, appId)
    modifies db`applications, db`issuances
    ensures db.Valid()
    ensures db.applications == old(db.applications)[appId := old(db.applications)[appId].(user := Some(userId))]
    ensures db.issuances == old(db.issuances)
  {
    var patch := ApplicationsService.NoChange.(user := Set(Some(userId)));
    var updated := ApplicationsService.FindByIdAndUpdate(db, appId, patch);
  }

  /** The claim (for an unclaimed application) followed by linking the
      holder (for an application without a user). */
  method ClaimAndLink(db: Store, app: Application, template: Template, index: nat, holder: Option<Id>) returns (ok: bool)
    requires db.Valid()
    requires app.id in db.applications && db.applications[app.id] == app
    requires template.id in db.templates && db.templates[template.id] == template
    requires HasIssuance(db.issuances, app.id)
    requires app.user.None? ==> holder.Some?
    modifies db`applications, db`templates, db`issuances
    ensures db.Valid()
    ensures db.issuances == old(db.issuances)
    ensures ok <==> app.claimed || ClaimBit(template.statusList, index).Ok?
    ensures !ok ==> db.templates == old(db.templates) && db.applications == old(db.applications)
    ensures ok ==> app.id in db.applications && db.applications[app.id].claimed
    ensures ok && app.claimed ==> db.templates == old(db.templates)
    ensures ok && !app.claimed ==>
      db.templates == old(db.templates)[template.id := template.(statusList := ClaimBit(template.statusList, index).value)]
    ensures ok ==> db.applications[app.id].user == if app.user.None? then holder else app.user
  {
    if !app.claimed {
      var claim := ClaimTransaction(db, app, template, index);
      if claim.Err? {
        return false;
      }
    }
    if app.user.None? {
      LinkHolder(db, app.id, holder.value);
    }
    ok := true;
  }

  /** What `Issue` needs to succeed, read from the store before it runs:
      the application has an issuance; its bit can be claimed unless the
      application is already claimed; and the credential can be assembled
      from the template, the organization `org` and the holder `did`. */
  predicate IssueSucceeds(issuances: seq<Issuance>, org: Option<Organization>, app: Application, template: Template,
                          did: string, baseUri: string)
  {
    && IssuanceOf(issuances, app.id).Some?
    && var index := IssuanceOf(issuances, app.id).value.applicationIndex;
    && (app.claimed || ClaimBit(template.statusList, index).Ok?)
    && Assemble(app, template, org, index, did, baseUri).Ok?
  }

  /** The part of `sendCredential` after its guards, for a stored,
      approved application `app` with a stored template and a holder DID. */
  method Issue(db: Store, app: Application, template: Template, did: string, state: string, baseUri: string)
    returns (r: Result<IssuedCredential>)
    requires db.Valid()
    requires app.id in db.applications && db.applications[app.id] == app
    requires template.id in db.templates && db.templates[template.id] == template
    modifies db`users, db`applications, db`templates, db`issuances, db`broadcasts
    ensures db.Valid()
    ensures db.issuances == old(db.issuances)
    ensures r.Err? ==> r.error.ServerError? && db.broadcasts == old(db.broadcasts)
    ensures r.Ok? <==> IssueSucceeds(old(db.issuances), old(OrganizationAt(db, app.organization)), app, template, did, baseUri)
    ensures r.Ok? ==> IssuanceOf(db.issuances, app.id).Some?
    ensures r.Ok? ==>
      var index := IssuanceOf(db.issuances, app.id).value.applicationIndex;
      && app.id in db.applications && db.applications[app.id].claimed
      && (app.claimed ==> db.templates == old(db.templates))
      && (!app.claimed ==>
            && ClaimBit(template.statusList, index).Ok?
            && db.templates == old(db.templates)[template.id := template.(statusList := ClaimBit(template.statusList, index).value)])
      && r == Assemble(app, template, old(OrganizationAt(db, app.organization)), index, did, baseUri)
      && db.broadcasts == old(db.broadcasts) + [Broadcast(state, CredentialMessage)]
    ensures r.Ok? && app.user.Some? ==> db.users == old(db.users) && db.applications[app.id].user == app.user
    ensures r.Ok? && app.user.None? ==>
      && db.applications[app.id].user.Some? && db.applications[app.id].user.value in db.users
      && db.users[db.applications[app.id].user.value].did == Some(did)
  {
    var organization := OrganizationAt(db, app.organization);
    var user: Option<User> := None;
    if app.user.None? {
      var holder := ResolveHolder(db, did);
      user := Some(holder);
    }

    var issuance := IssuanceOf(db.issuances, app.id);
    if issuance.None? {
      return Err(ServerError("credentialIssuance is null"));
    }
    var index := issuance.value.applicationIndex;

    var holder := if user.Some? then Some(user.value.id) else None;
    var ok := ClaimAndLink(db, app, template, index, holder);
    if !ok {
      return Err(ServerError("status list index out of range"));
    }
    var credential := Assemble(app, template, organization, index, did, baseUri);
    if credential.Err? {
      return Err(ServerError(credential.error.reason));
    }
    db.broadcasts := db.broadcasts + [Broadcast(state, CredentialMessage)];
    r := credential;
  }

  /** `sendCredential`. In order: the bearer token must be present; the
      token's application must exist and be approved; the holder's DID is
      taken from the proof; then `Issue` resolves the holder, claims, links
      and assembles. `payload` and `proofDid` are what the JWT and proof
      verifiers return (absent when they throw). */
  method SendCredential(db: Store, authorization: Option<string>, payload: Option<TokenPayload>,
                        proofDid: Option<string>, baseUri: string)
    returns (r: Result<IssuedCredential>)
    requires db.Valid()
    modifies db`users, db`applications, db`templates, db`issuances, db`broadcasts
    ensures db.Valid()
    // guards that fire before any write
    ensures !Truthy(BearerToken(authorization)) ==> r == Err(Unauthorized(NoToken))
    ensures Truthy(BearerToken(authorization)) && payload.Some? && old(TokenApplication(db, payload.value)).Some?
      && old(TokenApplication(db, payload.value)).value.status != ApprovedStatus
      ==> r == Err(BadRequest(NotApproved))
    ensures r.Err? && (r.error.Unauthorized? || r.error.BadRequest?) ==>
      && db.users == old(db.users) && db.applications == old(db.applications)
      && db.templates == old(db.templates) && db.broadcasts == old(db.broadcasts)
    ensures db.issuances == old(db.issuances)
    ensures r.Err? ==> db.broadcasts == old(db.broadcasts)
    // a successful issuance
    ensures r.Ok? ==> Truthy(BearerToken(authorization)) && payload.Some? && proofDid.Some? && old(Issuable(db, payload.value))
    ensures Truthy(BearerToken(authorization)) && payload.Some? && proofDid.Some? && old(Issuable(db, payload.value)) ==>
      var app := old(TokenApplication(db, payload.value)).value;
      (r.Ok? <==> IssueSucceeds(old(db.issuances), old(OrganizationAt(db, app.organization)), app,
                                old(db.templates)[app.template.value], proofDid.value, baseUri))
    ensures r.Ok? ==>
      var app := old(TokenApplication(db, payload.value)).value;
      var template := old(db.templates)[app.template.value];
      var index := IssuanceOf(db.issuances, app.id).value.applicationIndex;
      && app.id in db.applications && db.applications[app.id].claimed
      && (app.claimed ==> db.templates == old(db.templates))
      && (!app.claimed ==>
            && ClaimBit(template.statusList, index).Ok?
            && db.templates == old(db.templates)[template.id := template.(statusList := ClaimBit(template.statusList, index).value)])
      && r == Assemble(app, template, old(OrganizationAt(db, app.organization)), index, proofDid.value, baseUri)
      && db.broadcasts == old(db.broadcasts) + [Broadcast(payload.value.state, CredentialMessage)]
    ensures r.Ok? ==>
      var app := old(TokenApplication(db, payload.value)).value;
      && (app.user.Some? ==> db.users == old(db.users) && db.applications[app.id].user == app.user)
      && (app.user.None? ==>
            && db.applications[app.id].user.Some? && db.applications[app.id].user.value in db.users
            && db.users[db.applications[app.id].user.value].did == proofDid)
  {
    var token := BearerToken(authorization);
    if !Truthy(token) {
      return Err(Unauthorized(NoToken));
    }
    if payload.None? {
      return Err(ServerError("invalid JWT"));
    }
    var claims := payload.value;
    if claims.applicationId.None? || claims.applicationId.value !in db.applications {
      return Err(ServerError("application is null"));
    }
    var application := db.applications[claims.applicationId.value];
    if application.status != ApprovedStatus {
      return Err(BadRequest(NotApproved));
    }
    if application.template.None? || application.template.value !in db.templates {
      return Err(ServerError("application.template is null"));
    }
    var template := db.templates[application.template.value];
    if proofDid.None? {
      return Err(ServerError("invalid proof"));
    }
    r := Issue(db, application, template, proofDid.value, claims.state, baseUri);
  }

  // ---------------------------------------------------------------------
  // verifyAuthResponse
  // ---------------------------------------------------------------------

  /** `application.stepActions.length`: the step actions recorded for an application. */
  function StepCount(actions: seq<StepAction>, appId: Id): (n: nat)
    ensures n <= |actions|
  {
    if actions == [] then 0
    else (if actions[0].application == appId then 1 else 0) + StepCount(actions[1..], appId)
  }

  /** Recording a step for an application advances its step index by one
      and leaves every other application's index alone, so successive
      responses walk the flow's steps in order. */
  lemma {:induction false} StepCountAppend(actions: seq<StepAction>, a: StepAction, appId: Id)
    ensures StepCount(actions + [a], appId) == StepCount(actions, appId) + (if a.application == appId then 1 else 0)
  {
    if actions != [] {
      assert (actions + [a])[1..] == actions[1..] + [a];
      StepCountAppend(actions[1..], a, appId);
    }
  }

  /** `flow.steps.find((s) => s.index === index)`: the first step with that index. */
  function FindStep(steps: seq<StepConfig>, index: int): (r: Option<StepConfig>)
    ensures r.None? <==> forall k :: 0 <= k < |steps| ==> steps[k].index != index
    ensures r.Some? ==> exists k :: (0 <= k < |steps| && steps[k] == r.value && r.value.index == index
                                     && forall j :: 0 <= j < k ==> steps[j].index != index)
  {
    if steps == [] then None
    else if steps[0].index == index then Some(steps[0])
    else
      var r := FindStep(steps[1..], index);
      assert forall k :: 0 < k < |steps| ==> steps[1..][k - 1] == steps[k];
      if r.Some? then
        var k :| 0 <= k < |steps[1..]| && steps[1..][k] == r.value && r.value.index == index
          && forall j :: 0 <= j < k ==> steps[1..][j].index != index;
        assert steps[k + 1] == r.value;
        r
      else r
  }

  /** The step action an authorization response records: the flow's step
      whose index is the number of steps already recorded, with status
      `proceed` and the DID the response proved. */
  function NextStepAction(actions: seq<StepAction>, app: Application, flow: Flow, did: string): (a: StepAction)
    ensures a.application == app.id && a.status == "proceed" && a.metadataDid == did
    ensures a.stepConfig.Some? ==> a.stepConfig.value.index == StepCount(actions, app.id) && a.stepConfig.value in flow.steps
  {
    StepAction(app.id, FindStep(flow.steps, StepCount(actions, app.id)), "proceed", did)
  }

  /** `sessionsService.findByIdAndUpdate(state, {isValid: true, did, user})`. */
  function BindSession(sessions: map<Id, Session>, id: Id, did: string, userId: Id): (r: map<Id, Session>)
    ensures r.Keys == sessions.Keys
    ensures id in sessions ==> r[id] == sessions[id].(isValid := true, did := Some(did), user := Some(userId))
    ensures forall k | k in sessions && k != id :: r[k] == sessions[k]
  {
    if id in sessions then sessions[id := sessions[id].(isValid := true, did := Some(did), user := Some(userId))]
    else sessions
  }

  /** `!!user.email || !!user.organization`. */
  predicate CanLogIn(u: User)
  {
    Truthy(u.email) || u.organization.Some?
  }

  const UserExistsError := "User already exists!"

  datatype AuthPath = ExistingLogin | Signup | FlowStep | Presentation

  /** The login branch of an `id_token` response: bind the session to the
      user holding `iss`, creating that user when there is none, and tell
      the session. */
  method LoginWithDid(db: Store, state: string, iss: string) returns (path: AuthPath)
    requires db.Valid()
    modifies db`users, db`sessions, db`broadcasts
    ensures db.Valid()
    ensures path == ExistingLogin <==> old(HolderExists(db, iss))
    ensures path == ExistingLogin || path == Signup
    ensures path == ExistingLogin ==>
      var k := old(HolderOf(db.users, iss));
      && db.users == old(db.users)
      && db.sessions == BindSession(old(db.sessions), state, iss, k)
      && db.broadcasts == old(db.broadcasts) + [Broadcast(state, LoginMessage(Some(UserExistsError), CanLogIn(old(db.users)[k]), k))]
    ensures path == Signup ==>
      exists u: User ::
        && u.id !in old(db.users) && u.did == Some(iss) && !CanLogIn(u)
        && db.users == old(db.users)[u.id := u]
        && db.sessions == BindSession(old(db.sessions), state, iss, u.id)
        && db.broadcasts == old(db.broadcasts) + [Broadcast(state, LoginMessage(None, false, u.id))]
  {
    var found := FindUserByDid(db, iss);
    if found.Some? {
      var user := found.value;
      assert user.id == HolderOf(db.users, iss);
      db.sessions := BindSession(db.sessions, state, iss, user.id);
      db.broadcasts := db.broadcasts + [Broadcast(state, LoginMessage(Some(UserExistsError), CanLogIn(user), user.id))];
      return ExistingLogin;
    }
    var user := CreateUserWithDid(db, iss);
    db.sessions := BindSession(db.sessions, state, iss, user.id);
    db.broadcasts := db.broadcasts + [Broadcast(state, LoginMessage(None, CanLogIn(user), user.id))];
    path := Signup;
  }

  /** Record the next step of `app`'s flow and tell the session it was shared. */
  method RecordStep(db: Store, app: Application, flow: Flow, did: string, channel: string)
    modifies db`stepActions, db`broadcasts
    ensures db.stepActions == old(db.stepActions) + [NextStepAction(old(db.stepActions), app, flow, did)]
    ensures db.broadcasts == old(db.broadcasts) + [Broadcast(channel, SharedMessage)]
  {
    db.stepActions := db.stepActions + [NextStepAction(db.stepActions, app, flow, did)];
    db.broadcasts := db.broadcasts + [Broadcast(channel, SharedMessage)];
  }

  /** The application a stored record points at, with its stored flow. */
  predicate HasFlow(db: Store, appId: Option<Id>)
    reads db
  {
    appId.Some? && appId.value in db.applications
    && db.applications[appId.value].flow.Some? && db.applications[appId.value].flow.value in db.flows
  }

  /** `verifyAuthResponse`. With an `id_token`, after the relying party
      accepts the response (`idTokenAccepted`) and names its issuer `iss`: a
      state holding `::` records the next flow step of the application named
      after the separator and notifies the session named before it; any other
      state is a session id to log in or sign up. Without an `id_token` the
      response is a presentation: the session id and the SIOP offer id are
      the two parts of the state, the presentation must satisfy the offer's
      stored definition (`presentationAccepted`), and the offer's
      application records its next step. */
  method VerifyAuthResponse(db: Store, state: string, idToken: Option<string>, idTokenAccepted: bool,
                            iss: Option<string>, presentationAccepted: Json -> bool)
    returns (r: Result<AuthPath>)
    requires db.Valid()
    modifies db`users, db`sessions, db`stepActions, db`broadcasts
    ensures db.Valid()
    ensures r.Err? ==>
      && r.error.ServerError? && db.users == old(db.users) && db.sessions == old(db.sessions)
      && db.stepActions == old(db.stepActions) && db.broadcasts == old(db.broadcasts)
    ensures r.Ok? ==> iss.Some?
    // when each path succeeds
    ensures Truthy(idToken) && Contains(state, Separator) ==>
      (r.Ok? <==> idTokenAccepted && iss.Some? && old(HasFlow(db, DecodeState(state).1)))
    ensures Truthy(idToken) && !Contains(state, Separator) ==> (r.Ok? <==> idTokenAccepted && iss.Some?)
    ensures !Truthy(idToken) ==>
      var siopId := DecodeState(state).1;
      (r.Ok? <==> && siopId.Some? && siopId.value in old(db.siopOffers) && iss.Some?
                  && old(HasFlow(db, db.siopOffers[siopId.value].application))
                  && presentationAccepted(old(db.siopOffers[siopId.value].pex)))
    // flow step
    ensures Truthy(idToken) && Contains(state, Separator) && r.Ok? ==>
      var (sessionId, applicationId) := DecodeState(state);
      && r.value == FlowStep && idTokenAccepted && HasFlow(db, applicationId)
      && var app := db.applications[applicationId.value];
      && db.stepActions == old(db.stepActions) + [NextStepAction(old(db.stepActions), app, db.flows[app.flow.value], iss.value)]
      && db.broadcasts == old(db.broadcasts) + [Broadcast(sessionId, SharedMessage)]
      && db.users == old(db.users) && db.sessions == old(db.sessions)
    // login or signup
    ensures Truthy(idToken) && !Contains(state, Separator) && r.Ok? ==>
      && idTokenAccepted
      && (r.value == ExistingLogin <==> old(HolderExists(db, iss.value)))
      && (r.value == ExistingLogin || r.value == Signup)
      && db.stepActions == old(db.stepActions)
    ensures Truthy(idToken) && !Contains(state, Separator) && r == Ok(ExistingLogin) ==>
      var k := old(HolderOf(db.users, iss.value));
      && db.users == old(db.users)
      && db.sessions == BindSession(old(db.sessions), state, iss.value, k)
      && db.broadcasts == old(db.broadcasts) + [Broadcast(state, LoginMessage(Some(UserExistsError), CanLogIn(old(db.users)[k]), k))]
    ensures Truthy(idToken) && !Contains(state, Separator) && r == Ok(Signup) ==>
      exists u: User ::
        && u.id !in old(db.users) && u.did == iss && !CanLogIn(u)
        && db.users == old(db.users)[u.id := u]
        && db.sessions == BindSession(old(db.sessions), state, iss.value, u.id)
        && db.broadcasts == old(db.broadcasts) + [Broadcast(state, LoginMessage(None, false, u.id))]
    // presentation
    ensures !Truthy(idToken) && r.Ok? ==>
      var (sessionId, siopId) := DecodeState(state);
      && r.value == Presentation && siopId.Some? && siopId.value in db.siopOffers
      && var offer := db.siopOffers[siopId.value];
      && presentationAccepted(offer.pex) && HasFlow(db, offer.application)
      && var app := db.applications[offer.application.value];
      && db.stepActions == old(db.stepActions) + [NextStepAction(old(db.stepActions), app, db.flows[app.flow.value], iss.value)]
      && db.broadcasts == old(db.broadcasts) + [Broadcast(sessionId, SharedMessage)]
      && db.users == old(db.users) && db.sessions == old(db.sessions)
  {
    if Truthy(idToken) {
      var isFlowLoginAttempt := Contains(state, Separator);
      if !idTokenAccepted {
        return Err(ServerError("authorization response rejected"));
      }
      if iss.None? {
        return Err(ServerError("id_token rejected"));
      }
      if isFlowLoginAttempt {
        var (sessionId, applicationId) := DecodeState(state);
        if !HasFlow(db, applicationId) {
          return Err(ServerError("application or flow is null"));
        }
        var application := db.applications[applicationId.value];
        var flow := db.flows[application.flow.value];
        RecordStep(db, application, flow, iss.value, sessionId);
        return Ok(FlowStep);
      } else {
        var path := LoginWithDid(db, state, iss.value);
        return Ok(path);
      }
    } else {
      var (sessionId, siopId) := DecodeState(state);
      if siopId.None? || siopId.value !in db.siopOffers {
        return Err(ServerError("siopSession is null"));
      }
      var siopSession := db.siopOffers[siopId.value];
      if iss.None? {
        return Err(ServerError("vp_token rejected"));
      }
      if !HasFlow(db, siopSession.application) {
        return Err(ServerError("application or flow is null"));
      }
      var application := db.applications[siopSession.application.value];
      var flow := db.flows[application.flow.value];
      if !presentationAccepted(siopSession.pex) {
        return Err(ServerError("presentation rejected"));
      }
      RecordStep(db, application, flow, iss.value, sessionId);
      return Ok(Presentation);
    }
  }
}
