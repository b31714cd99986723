/** The batch issuance path of the e-mail service
    (apps/server/src/modules/email/email.service.ts): rejecting a batch
    with bad recipient addresses, turning recipients into approved
    applications, metering and addressing one message to each, and the
    logo fallbacks of the outgoing messages. */
module EmailService {
  import opened Common
  import opened Entities
  import opened Db
  import ApplicationsService

  /** One row of an uploaded recipient sheet. */
  type Recipient = map<string, Json>

  /** `String(v)`, the conversion `RegExp.prototype.test` applies to its
      argument. */
  function ToText(v: Json): (t: string)
    ensures v.JStr? ==> t == v.s
    ensures v.JNum? && v.n >= 0 ==> t == NatToString(v.n)
    ensures v.JNum? && v.n < 0 ==> t == "-" + NatToString(-v.n)
  {
    match v
    case JNull => "null"
    case JBool(b) => if b then "true" else "false"
    case JNum(n) => if n < 0 then "-" + NatToString(-n) else NatToString(n)
    case JStr(s) => s
    case JObj(_) => "[object Object]"
  }

  /** `recipient.email` as the address pattern sees it: a missing address
      is matched as the text "undefined", any other value as its string
      conversion. */
  function EmailText(r: Recipient): (t: string)
    ensures "email" !in r ==> t == "undefined"
    ensures "email" in r ==> t == ToText(r["email"])
  {
    if "email" in r then ToText(r["email"]) else "undefined"
  }

  /** `recipient.email` as stored on the application. */
  function RecipientEmail(r: Recipient): Option<string>
  {
    if "email" in r && r["email"].JStr? then Some(r["email"].s) else None
  }

  /** The spreadsheet row of recipient `i`: one for counting from 1, one for
      the header row. */
  function RowOf(i: nat): nat
  {
    i + 2
  }

  /** The rows whose address fails `pattern`, in order. */
  function BadEmailRows(recipients: seq<Recipient>, pattern: string -> bool): (rows: seq<nat>)
    ensures forall k :: 0 <= k < |rows| ==> 2 <= rows[k] < |recipients| + 2
    ensures forall k, l :: 0 <= k < l < |rows| ==> rows[k] < rows[l]
    decreases |recipients|
  {
    if recipients == [] then []
    else
      var last := |recipients| - 1;
      var init := BadEmailRows(recipients[..last], pattern);
      if pattern(EmailText(recipients[last])) then init else init + [RowOf(last)]
  }

  /** Exactly the rows of the recipients whose address fails are reported. */
  lemma {:induction false} BadEmailRowsExact(recipients: seq<Recipient>, pattern: string -> bool)
    ensures forall i :: 0 <= i < |recipients| ==>
      (RowOf(i) in BadEmailRows(recipients, pattern) <==> !pattern(EmailText(recipients[i])))
    decreases |recipients|
  {
    if recipients != [] {
      var last := |recipients| - 1;
      var init := recipients[..last];
      BadEmailRowsExact(init, pattern);
      assert forall i :: 0 <= i < last ==> init[i] == recipients[i];
    }
  }

  /** A batch is reported bad exactly when some address fails. */
  lemma NoBadRowsIffAllValid(recipients: seq<Recipient>, pattern: string -> bool)
    ensures BadEmailRows(recipients, pattern) == [] <==> forall i :: 0 <= i < |recipients| ==> pattern(EmailText(recipients[i]))
  {
    BadEmailRowsExact(recipients, pattern);
    var rows := BadEmailRows(recipients, pattern);
    if rows != [] {
      assert RowOf(rows[0] - 2) == rows[0];
    }
  }

  function RenderRows(rows: seq<nat>): (texts: seq<string>)
    ensures |texts| == |rows| && forall k :: 0 <= k < |rows| ==> texts[k] == NatToString(rows[k])
  {
    seq(|rows|, k requires 0 <= k < |rows| => NatToString(rows[k]))
  }

  const BadRowsPrefix := "Bad emails provided in rows "

  /** The message of the error a bad batch raises. */
  function BadRowsMessage(rows: seq<nat>): (m: string)
    ensures StartsWith(m, BadRowsPrefix)
  {
    BadRowsPrefix + Join(RenderRows(rows), ", ")
  }

  /** Each reported row reads back as the number it was rendered from. */
  lemma ReportedRowsReadBack(rows: seq<nat>, k: int)
    requires 0 <= k < |rows|
    ensures ParseNat(RenderRows(rows)[k]) == rows[k]
  {
    ParseNatToString(rows[k]);
  }

  /** The application a recipient becomes: approved at `now`, processed by
      the uploader, with the recipient row as its body. */
  function Enriched(r: Recipient, template: Template, batch: Option<Id>, now: int, uploader: Id): (a: Application)
    ensures a.status == ApprovedStatus && a.body == r && a.email == RecipientEmail(r)
    ensures a.template == Some(template.id) && a.organization == template.organization
    ensures a.approvalTimeStamp == Some(now) && a.processedBy == Some(uploader) && a.batchIssuance == batch
  {
    Application("", ApprovedStatus, "self", r, false, Some(now), Some(template.id), None, RecipientEmail(r),
                template.organization, None, Some(uploader), batch)
  }

  function EnrichAll(recipients: seq<Recipient>, template: Template, batch: Option<Id>, now: int, uploader: Id): (apps: seq<Application>)
    ensures |apps| == |recipients|
    ensures forall i :: 0 <= i < |apps| ==> apps[i] == Enriched(recipients[i], template, batch, now, uploader)
  {
    seq(|recipients|, i requires 0 <= i < |recipients| => Enriched(recipients[i], template, batch, now, uploader))
  }

  // ---------------------------------------------------------------------
  // Logo fallbacks
  // ---------------------------------------------------------------------

  /** `new URL('/images/Logo.png', PUBLIC_CLIENT_URI)`, the client URI being an origin. */
  function DefaultLogo(clientUri: string): string
  {
    clientUri + "/images/Logo.png"
  }

  /** `organization.logo ?? default`: the logo of batch and invitation messages. */
  function BatchLogo(org: Organization, clientUri: string): (logo: string)
    ensures org.logo.Some? ==> logo == org.logo.value
    ensures org.logo.None? ==> logo == DefaultLogo(clientUri)
  {
    if org.logo.Some? then org.logo.value else DefaultLogo(clientUri)
  }

  /** `template.icon ?? organization.logo ?? default`: the logo of the
      deferred step-action messages. */
  function DeferredLogo(template: Template, org: Organization, clientUri: string): (logo: string)
    ensures template.icon.Some? ==> logo == template.icon.value
    ensures template.icon.None? ==> logo == BatchLogo(org, clientUri)
  {
    if template.icon.Some? then template.icon.value
    else if org.logo.Some? then org.logo.value
    else DefaultLogo(clientUri)
  }

  /** Only an absent value falls through: an empty logo is still used. */
  lemma EmptyLogoIsKept(template: Template, org: Organization, clientUri: string)
    requires template.icon.None? && org.logo == Some("")
    ensures DeferredLogo(template, org, clientUri) == "" && BatchLogo(org, clientUri) == ""
  {
  }

  // ---------------------------------------------------------------------
  // sendBatchCredentials
  // ---------------------------------------------------------------------

  function BatchSubject(org: Organization): string
  {
    "You have received a new credential from " + org.name
  }

  /** One message per application, in order, to its e-mail. */
  function BatchMails(apps: seq<Application>, org: Organization, logo: string): (mails: seq<Mail>)
    ensures |mails| == |apps|
    ensures forall i :: 0 <= i < |apps| ==> mails[i] == Mail(apps[i].email, BatchSubject(org), logo)
  {
    seq(|apps|, i requires 0 <= i < |apps| => Mail(apps[i].email, BatchSubject(org), logo))
  }

  /** The usage report `reportUsageMetrics` files for an organization that
      has a subscription: one for the whole batch when the subscription has
      a (non-empty) Stripe id, none otherwise. */
  function Charged(org: Organization, recipientCount: nat): (reports: seq<UsageReport>)
    requires org.subscription.Some?
    ensures |reports| <= 1
    ensures reports != [] <==> Truthy(org.subscription.value.subscriptionId)
    ensures forall r :: r in reports ==> r == UsageReport(org.id, recipientCount)
  {
    if Truthy(org.subscription.value.subscriptionId) then [UsageReport(org.id, recipientCount)] else []
  }

  /** After the applications are stored: charge the organization for every
      recipient (`reportUsageMetrics`), then address one message to each
      application. The charge reads the organization's subscription: a
      missing one is dereferenced before any message goes out, and an empty
      subscription id skips the report but not the messages. */
  method ChargeAndNotify(db: Store, template: Template, created: seq<Application>, recipientCount: nat, clientUri: string)
    returns (err: Option<Error>)
    requires db.Valid()
    modifies db`usageReports, db`mails
    ensures db.Valid()
    ensures var org := OrganizationAt(db, template.organization);
      if org.None? || org.value.subscription.None? then
        err.Some? && err.value.ServerError? && db.usageReports == old(db.usageReports) && db.mails == old(db.mails)
      else
        && err.None?
        && db.usageReports == old(db.usageReports) + Charged(org.value, recipientCount)
        && db.mails == old(db.mails) + BatchMails(created, org.value, BatchLogo(org.value, clientUri))
  {
    var organization := OrganizationAt(db, template.organization);
    if organization.None? {
      return Some(ServerError("organization is null"));
    }
    var logoPath := BatchLogo(organization.value, clientUri);
    if organization.value.subscription.None? {
      return Some(ServerError("Cannot destructure property 'subscriptionId' of null"));
    }
    if Truthy(organization.value.subscription.value.subscriptionId) {
      db.usageReports := db.usageReports + [UsageReport(organization.value.id, recipientCount)];
    }
    db.mails := db.mails + BatchMails(created, organization.value, logoPath);
    err := None;
  }

  /** The template's organization is stored and has a subscription, so
      `reportUsageMetrics` does not fail on it. */
  predicate Chargeable(db: Store, template: Template)
    reads db
  {
    var org := OrganizationAt(db, template.organization);
    org.Some? && org.value.subscription.Some?
  }

  /** `createBulk` on the enriched recipients of a non-empty batch: they all
      share the template, so the batch is stored. */
  method StoreBatch(db: Store, template: Template, recipients: seq<Recipient>, uploader: Id, batch: Option<Id>, now: int)
    returns (created: seq<Application>)
    requires db.Valid() && recipients != []
    modifies db`applications, db`issuances
    ensures db.Valid()
    ensures |created| == |recipients|
    ensures forall i :: 0 <= i < |recipients| ==>
      created[i] == Enriched(recipients[i], template, batch, now, uploader).(id := created[i].id)
      && created[i].id !in old(db.applications)
    ensures db.applications == ApplicationsService.InsertAll(old(db.applications), created)
    ensures db.issuances == old(db.issuances) + ApplicationsService.BulkRows(created, ApplicationsService.MaxIndex(old(db.issuances), template.id))
  {
    var enriched := EnrichAll(recipients, template, batch, now, uploader);
    assert forall i :: 0 <= i < |enriched| ==> enriched[i].template == Some(template.id);
    var stored := ApplicationsService.CreateBulk(db, enriched);
    created := stored.value;
  }

  /** `sendBatchCredentials`: a batch with any bad address is refused
      whole, naming its rows; otherwise each recipient becomes one approved
      application (`created`) with consecutive issuance indices; then the
      organization is charged for every recipient and each application's
      address gets one message, unless the organization has no subscription,
      which fails after the applications are stored. `pattern` is the address pattern, `now` the
      clock. */
  method SendBatchCredentials(db: Store, template: Template, recipients: seq<Recipient>, uploader: Id, batch: Option<Id>,
                              now: int, pattern: string -> bool, clientUri: string)
    returns (err: Option<Error>, created: seq<Application>)
    requires db.Valid()
    modifies db`applications, db`issuances, db`usageReports, db`mails
    ensures db.Valid()
    ensures BadEmailRows(recipients, pattern) != [] ==>
      && err == Some(ServerError(BadRowsMessage(BadEmailRows(recipients, pattern))))
      && db.applications == old(db.applications) && db.issuances == old(db.issuances)
      && db.usageReports == old(db.usageReports) && db.mails == old(db.mails)
    ensures BadEmailRows(recipients, pattern) == [] && recipients == [] ==>
      err.Some? && db.applications == old(db.applications) && db.mails == old(db.mails) && db.usageReports == old(db.usageReports)
    ensures BadEmailRows(recipients, pattern) == [] && recipients != [] ==>
      && |created| == |recipients|
      && (forall i :: 0 <= i < |recipients| ==>
            created[i] == Enriched(recipients[i], template, batch, now, uploader).(id := created[i].id)
            && created[i].id !in old(db.applications))
      && db.applications == ApplicationsService.InsertAll(old(db.applications), created)
      && db.issuances == old(db.issuances) + ApplicationsService.BulkRows(created, ApplicationsService.MaxIndex(old(db.issuances), template.id))
    ensures BadEmailRows(recipients, pattern) == [] && recipients != [] && !Chargeable(db, template) ==>
      err.Some? && err.value.ServerError? && db.usageReports == old(db.usageReports) && db.mails == old(db.mails)
    ensures BadEmailRows(recipients, pattern) == [] && recipients != [] && Chargeable(db, template) ==>
      var org := OrganizationAt(db, template.organization).value;
      && err.None?
      && db.usageReports == old(db.usageReports) + Charged(org, |recipients|)
      && db.mails == old(db.mails) + BatchMails(created, org, BatchLogo(org, clientUri))
  {
    created := [];
    var badEmailRows := BadEmailRows(recipients, pattern);
    if |badEmailRows| > 0 {
      return Some(ServerError(BadRowsMessage(badEmailRows))), created;
    }
    if recipients == [] {
      var stored := ApplicationsService.CreateBulk(db, []);
      return Some(stored.error), created;
    }
    created := StoreBatch(db, template, recipients, uploader, batch, now);
    err := ChargeAndNotify(db, template, created, |recipients|, clientUri);
  }
}
