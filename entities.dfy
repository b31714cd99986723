/** The persisted records the core reads and writes (the TypeORM entities),
    reduced to the columns and relations the modelled operations touch.
    Relations are held as the id of the related row. */
module Entities {
  import opened Common

  type Id = string

  const ApprovedStatus := "approved"
  const PendingStatus := "pending"

  /** A credential request or grant (entities/application.ts). */
  datatype Application = Application(
    id: Id,
    status: string,
    source: string,
    body: map<string, Json>,
    claimed: bool,
    approvalTimeStamp: Option<int>,  // milliseconds since the epoch
    template: Option<Id>,
    user: Option<Id>,
    email: Option<string>,
    organization: Option<Id>,
    flow: Option<Id>,
    processedBy: Option<Id>,
    batchIssuance: Option<Id>)

  /** A row of the credential-issuance table: the index an application holds
      in its template's status list (entities/credential-issuance.ts). */
  datatype Issuance = Issuance(application: Id, template: Option<Id>, applicationIndex: nat)

  /** A credential template with its decoded revocation status list. */
  datatype Template = Template(
    id: Id,
    name: string,
    kind: string,  // the `type` column: "badge" or a standard credential
    duration: int,  // seconds added to the approval time
    icon: Option<string>,
    prefilledFields: map<string, Json>,
    statusList: seq<bool>,
    organization: Option<Id>,
    signingIdentityUrl: string)

  /** A step of an application flow; `fields`, `url`, `templates` and
      `kycLevel` are the parts of the step's `config` the validators read. */
  datatype StepConfig = StepConfig(
    index: int,
    stepType: string,
    fields: seq<string>,
    url: string,
    templates: seq<Id>,
    kycLevel: string)

  /** A flow, with the field ids of its template's user and issuer forms. */
  datatype Flow = Flow(id: Id, customFields: seq<string>, issuerFields: seq<string>, steps: seq<StepConfig>)

  datatype StepAction = StepAction(application: Id, stepConfig: Option<StepConfig>, status: string, metadataDid: string)

  /** A pending SIOP request (entities/siop-offer.ts). */
  datatype SiopOffer = SiopOffer(id: Id, request: string, pex: Json, application: Option<Id>)

  /** A pending credential offer, keyed by application id. */
  datatype CredOffer = CredOffer(id: Id, offer: string)

  /** A browser session; its id doubles as the broadcast channel. */
  datatype Session = Session(id: Id, isValid: bool, did: Option<string>, user: Option<Id>)

  datatype User = User(
    id: Id,
    did: Option<string>,
    email: Option<string>,
    emailVerified: bool,
    organization: Option<Id>,
    ownedOrganization: Option<Id>,
    role: map<string, Json>,
    notificationPreferences: Option<Id>)

  datatype Subscription = Subscription(
    subscriptionId: Option<string>,
    maxCredentials: Option<int>,
    maxIdentities: int,
    subscribed: bool)

  datatype Organization = Organization(
    id: Id,
    name: string,
    logo: Option<string>,
    contactEmail: Option<string>,
    emailVerified: bool,
    ownedBy: Option<Id>,
    description: Option<string>,
    organizationUrl: Option<string>,
    country: Option<string>,
    industry: Option<string>,
    subscription: Option<Subscription>)

  /** A DID an organization operates. */
  datatype Identity = Identity(id: Id, did: string, name: string, logo: Option<string>, url: string, organization: Id)

  /** A credential held by one of an organization's DIDs; `vcType` is the
      decoded `vc.type` array. */
  datatype OrgCredential = OrgCredential(id: Id, identity: Id, vcType: seq<string>, raw: string, discoverable: bool)

  datatype Notification = Notification(id: Id, kind: string, isRead: bool, userSubject: Id, userTarget: Id, application: Option<Id>)

  function ApplicationId(a: Application): Id { a.id }

  function NotificationId(n: Notification): Id { n.id }

  /** The ids of a sequence of records, in order, read by `key`. */
  function IdsOf<T>(xs: seq<T>, key: T -> Id): (ids: seq<Id>)
    ensures |ids| == |xs| && forall i :: 0 <= i < |xs| ==> ids[i] == key(xs[i])
  {
    seq(|xs|, i requires 0 <= i < |xs| => key(xs[i]))
  }

  datatype NotificationPreference = NotificationPreference(
    id: Id,
    communication: bool,
    activity: bool,
    system: bool,
    credential: bool,
    newsletter: bool,
    products: bool,
    resources: bool,
    emailNotifications: bool)

  /** The messages pushed to a browser session over the WebSocket server. */
  datatype Message =
    | LoginMessage(error: Option<string>, login: bool, user: Id)
    | SharedMessage
    | CredentialMessage

  datatype Broadcast = Broadcast(channel: string, message: Message)

  datatype Mail = Mail(to: Option<string>, subject: string, logo: string)

  /** The claims of a JSON web token the server signed; absent claims are `None`. */
  datatype TokenClaims = TokenClaims(
    scope: Option<string>,
    context: Option<string>,
    id: Option<Id>,
    userId: Option<Id>,
    applicationId: Option<Id>)

  /** What validating a token yields: its claims when it could be decoded,
      and whether it has expired. */
  datatype TokenCheck = TokenCheck(payload: Option<TokenClaims>, expired: bool)

  datatype UsageReport = UsageReport(organization: Id, quantity: nat)
}
