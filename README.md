# Identity starter kit server: a Dafny model of its core

This project models the server of the identity starter kit. The server is a
NestJS service that issues verifiable credentials through OpenID for
Verifiable Credentials. It runs the DIDs (decentralized identifiers) of an
organization. It manages users, organizations and their notifications.

The model covers these parts of the server:

- **OpenID orchestration** (`Oid4vcController`, `StateCodec`, `CredentialAssembly`):
  - the `state` correlation string, `sessionId` or `sessionId::applicationId`;
  - the SIOP-offer and credential-offer upserts;
  - the claim transaction, which sets a bit of the template's revocation status list and marks the application claimed;
  - the assembly of the issued credential: expiry, status entry and body precedence;
  - the three paths of the authorization response: login or sign-up, a flow step, and a presentation.
- **Issuance index allocation** (`ApplicationsService`):
  - `linkIssuance`, `create`, `createBulk` and `findByIdAndUpdate`;
  - the index a new issuance receives is the maximum of its template's indices plus one;
  - each application has at most one issuance.
- **Flow step validators** (`FlowValidation`):
  - the greedy subsequence test, proved equivalent to the existence of an embedding;
  - the disjointness test;
  - the error precedence of form steps;
  - the dispatch on step type.
- **Controller guards and rules**:
  - DIDs: identity limits and aliases, ownership checks, request classification, credential filtering (`DidsController`);
  - users: owner permission elevation, key rotation, notifications and their pagination, preference upserts, token-check order (`UsersController`, `Pagination`);
  - organizations: owner rotation, creation, the 600-character description limit, usage arithmetic, support-email verification (`OrganizationController`);
  - the contact-email verification reset of the organization service (`OrganizationService`);
  - applications: the external-application gate and the status-filter query (`ApplicationsController`);
  - batch issuance by e-mail: bad-row reporting, enrichment, logo fallbacks (`EmailService`);
  - the created-application notification and its preference filter (`NotificationService`).

The database is one object, `Db.Store`. It has one map per table, keyed by primary key. Notifications, the issuance table, broadcasts, mails and usage reports are sequences. `Store.Valid` states the invariants the schema keeps:

- every row is stored under its own key;
- each application has at most one issuance;
- the `(template, applicationIndex)` pair is unique;
- a DID belongs to at most one user.

Operations that write the store are methods with field-level `modifies` frames. Pure rules are functions, and lemmas relate them.

The identity provider, the JWT library, Stripe, SendGrid and the clock are left out of the model. Their outcomes are parameters of the operations: a verified DID, a token's claims and expiry, a pass/fail verdict, invoice quantities, the current time.

## Model

| member | source | states |
|---|---|---|
| StateCodec.EncodeState | apps/server/src/modules/oid4vc/oid4vc.controller.ts:70-72 | without a truthy application id the state is the session id itself; with one it starts with the session id, has `::` right after it and ends with the application id |
| StateCodec.DecodeState | apps/server/src/modules/oid4vc/oid4vc.controller.ts:339-345 | the first part is a prefix of the state; there is a second part exactly when the state contains `::` |
| StateCodec.DecodeEncode | apps/server/src/modules/oid4vc/oid4vc.controller.ts:70-72 | decoding an encoded state gives back the session id and the application id (no application id when it was absent or empty) |
| StateCodec.FlowStateIff | apps/server/src/modules/oid4vc/oid4vc.controller.ts:339 | the flow-login test `state.includes('::')` holds exactly when the state was built with an application id |
| StateCodec.DecodePlainState | apps/server/src/modules/oid4vc/oid4vc.controller.ts:400-401 | a state without `::` decodes to itself with no second part |
| StateCodec.FindSeparatorAfterSession | apps/server/src/modules/oid4vc/oid4vc.controller.ts:345 | in an encoded state the first `::` is the one right after the session id |
| Common.SplitJoin | apps/server/src/modules/oid4vc/oid4vc.controller.ts:345 | `split` then `join` with the same separator gives back the string, and no piece contains the separator |
| Common.ContainsIff | apps/server/src/modules/oid4vc/oid4vc.controller.ts:339 | `includes` holds exactly when the separator occurs at some position |
| Common.FindFrom | apps/server/src/modules/oid4vc/oid4vc.controller.ts:345 | the position found is the first occurrence at or after the start, and none is found only when there is none |
| Common.Split | apps/server/src/modules/oid4vc/oid4vc.controller.ts:345 | at least one piece; a single piece when the separator is absent; otherwise the first piece is everything before the first separator |
| Common.NoSepFirstPiece | apps/server/src/modules/oid4vc/oid4vc.controller.ts:400 | a string without the separator splits into itself alone |
| Common.NatToString | apps/server/src/modules/oid4vc/oid4vc.controller.ts:274 | `toString` of an index is a non-empty digit string with a leading zero only for 0 |
| Common.ParseNatToString | apps/server/src/modules/oid4vc/oid4vc.controller.ts:274 | reading back a rendered index gives the index |
| Common.NatToStringInjective | apps/server/src/modules/oid4vc/oid4vc.controller.ts:271-274 | distinct indices render as distinct strings |
| Common.Lower | apps/server/src/modules/dids/dids.controller.ts:85-99 | lowercasing keeps the length and leaves no upper-case ASCII letter |
| Common.LowerIdempotent | apps/server/src/modules/dids/dids.controller.ts:85-99 | lowercasing a lowercased url changes nothing |
| Common.PatchedThen | apps/server/src/modules/applications/applications.service.ts:145-148 | two spread updates applied in turn are one update in which the later supplied value wins |
| Common.FreshKey | apps/server/src/modules/applications/applications.service.ts:52-53 | a generated primary key is unused, non-empty and free of `:` |
| Oid4vcController.UpsertSiopOffer | apps/server/src/modules/oid4vc/oid4vc.controller.ts:87-99 | afterwards exactly one offer is stored under the session id, holding the new request and application; a new record has an empty `pex`; other offers are untouched |
| Oid4vcController.UpsertSiopOfferLastWins | apps/server/src/modules/oid4vc/oid4vc.controller.ts:87-99 | two requests on one session leave the record of the later one |
| Oid4vcController.NewSiopRequest | apps/server/src/modules/oid4vc/oid4vc.controller.ts:66-101 | returns the encoded state the request is built on (the provider's request object itself is a parameter), and upserts the session's SIOP offer, linked to the application only when one with that id is stored |
| Oid4vcController.CreateCredentialOffer | apps/server/src/modules/oid4vc/oid4vc.controller.ts:134-177 | a missing application is a server error and one not `approved` is NOT_APPROVED, both before any write; on success the offer is upserted under the application id, except that a failed create is swallowed |
| Oid4vcController.CredOfferUpsertLastWins | apps/server/src/modules/oid4vc/oid4vc.controller.ts:166-175 | two offers for one application leave one record holding the later offer |
| Oid4vcController.BearerToken | apps/server/src/modules/oid4vc/oid4vc.controller.ts:191 | no header, or a header without `Bearer `, gives no token |
| Oid4vcController.BearerTokenOfHeader | apps/server/src/modules/oid4vc/oid4vc.controller.ts:191 | the header `Bearer <jwt>` yields exactly the JWT |
| Oid4vcController.Assemble | apps/server/src/modules/oid4vc/oid4vc.controller.ts:247-330 | the credential goes to the proven DID; the branch follows `template.type === 'badge'`; it carries the status entry, the expiry and the verify id; a badge body is the application body, a standard body is the merged one; a missing approval time or organization is a server error |
| Oid4vcController.ResolveHolder | apps/server/src/modules/oid4vc/oid4vc.controller.ts:220-226 | returns the user holding the DID, creating exactly one when none exists and changing nothing otherwise |
| Oid4vcController.ClaimTransaction | apps/server/src/modules/oid4vc/oid4vc.controller.ts:229-245 | either sets bit `applicationIndex` of the status list and `claimed = true` together, or fails (index out of range) and writes neither |
| Oid4vcController.ClaimAndLink | apps/server/src/modules/oid4vc/oid4vc.controller.ts:229-256 | an unclaimed application is claimed (bit and flag together) and a claimed one leaves the status list alone; then a user-less application is linked to the holder; a failed claim writes nothing |
| Oid4vcController.LinkHolder | apps/server/src/modules/oid4vc/oid4vc.controller.ts:252-256 | only the application's user changes; its issuance stays |
| Oid4vcController.Issue | apps/server/src/modules/oid4vc/oid4vc.controller.ts:220-330 | succeeds exactly when the application has an issuance, its bit can be set (or it is already claimed) and the credential can be assembled; then an unclaimed application has its bit set and becomes claimed, a claimed one leaves the status list alone yet is still issued, `{credential: true}` is broadcast to the token's state, and the holder is linked when the application had no user; a failure is a server error with no broadcast |
| Oid4vcController.SendCredential | apps/server/src/modules/oid4vc/oid4vc.controller.ts:189-331 | a missing bearer token is Unauthorized and a non-approved application NOT_APPROVED, both before any write; success implies the token, proof and approval were all present; given those and a stored template and issuance, it succeeds exactly when the claim and the assembly can, and yields the assembled credential with the claim and broadcast above |
| Oid4vcController.StepCount | apps/server/src/modules/oid4vc/oid4vc.controller.ts:353 | the number of step actions of an application is at most the number of actions stored |
| Oid4vcController.StepCountAppend | apps/server/src/modules/oid4vc/oid4vc.controller.ts:353-365 | recording a step action of the application raises its step count by one, and by nothing for another application |
| Oid4vcController.FindStep | apps/server/src/modules/oid4vc/oid4vc.controller.ts:354-356 | returns the first step whose index is the one sought, and none exactly when no step has it |
| Oid4vcController.NextStepAction | apps/server/src/modules/oid4vc/oid4vc.controller.ts:353-365 | the appended action belongs to the application, has status `proceed` and metadata DID `iss`, and its step config (when found) is the flow's step indexed by the number of actions already recorded |
| Oid4vcController.BindSession | apps/server/src/modules/oid4vc/oid4vc.controller.ts:373-389 | the session `state` becomes valid and bound to the DID and user; other sessions are unchanged |
| Oid4vcController.LoginWithDid | apps/server/src/modules/oid4vc/oid4vc.controller.ts:369-394 | an existing holder of `iss` has the session bound and gets the `User already exists!` broadcast; otherwise exactly one new user, who cannot log in yet, is created and bound; `login` is `!!email \|\| !!organization` in both broadcasts |
| Oid4vcController.RecordStep | apps/server/src/modules/oid4vc/oid4vc.controller.ts:358-367 | appends exactly one step action and broadcasts `{shared: true}` to the given channel |
| Oid4vcController.VerifyAuthResponse | apps/server/src/modules/oid4vc/oid4vc.controller.ts:335-427 | dispatches on `id_token` and on `::`, and each path succeeds exactly when its verdicts pass and the rows it reads exist: a flow step (the application and its flow stored) appends one action and broadcasts to the first segment; a login by an existing holder of the DID binds the session to it, adds no user and broadcasts "User already exists!"; a sign-up adds exactly one user, holding the DID and unable to log in, binds the session to it and broadcasts that; a presentation (the offer named by the second segment stored, its application and flow stored, its `pex` satisfied) records the step and broadcasts to the session id; a failure writes nothing |
| CredentialAssembly.StatusUrl | apps/server/src/modules/oid4vc/oid4vc.controller.ts:247-250 | the status list url is the base followed by `/api/credentials/{templateId}/status/1` |
| CredentialAssembly.CredentialStatus | apps/server/src/modules/oid4vc/oid4vc.controller.ts:270-276 | a `BitstringStatusListEntry` for revocation whose list is the url, whose index reads back as the application index, and whose id is `url#index` |
| CredentialAssembly.StatusIdsDistinct | apps/server/src/modules/oid4vc/oid4vc.controller.ts:270-276 | two indices of one status list never share a status entry id |
| CredentialAssembly.ExpiryDate | apps/server/src/modules/oid4vc/oid4vc.controller.ts:259-263 | the expiry minus the duration is the approval time in whole seconds, rounded down |
| CredentialAssembly.LogoUri | apps/server/src/modules/oid4vc/oid4vc.controller.ts:314-317 | `template.icon ?? organization.logo ?? null` |
| CredentialAssembly.StandardBody | apps/server/src/modules/oid4vc/oid4vc.controller.ts:310-319 | the keys are those of the prefilled fields, the body and `enrichment`; body values beat prefilled ones; `enrichment` holds `logo_uri` |
| CredentialAssembly.ClaimBit | apps/server/src/modules/oid4vc/oid4vc.controller.ts:237-238 | setting bit `index` succeeds exactly when it is in range, sets that bit and keeps every other bit and the length |
| CredentialAssembly.ClaimBitIdempotentAndCommutes | apps/server/src/modules/oid4vc/oid4vc.controller.ts:229-245 | claiming a bit twice is claiming it once, and two claims commute |
| Db.Store.Valid | apps/server/src/entities/credential-issuance.ts:15-20 | the schema's constraints: every row sits under its own primary key; each issuance row belongs to a stored application, with at most one per application; `(template, applicationIndex)` is unique; no two users hold the same DID (the unique `did` column of `entities/user.ts`) |
| Db.HolderOf | apps/server/src/modules/oid4vc/oid4vc.controller.ts:369 | the user found by a DID is stored and holds that DID |
| Db.FindUserByDid | apps/server/src/modules/oid4vc/oid4vc.controller.ts:222 | finds the stored holder of the DID, and nothing only when no user holds it |
| Db.CreateUserWithDid | apps/server/src/modules/oid4vc/oid4vc.controller.ts:224 | adds exactly one user with that DID, no e-mail and no organization, under a fresh id |
| Db.OrganizationAt | apps/server/src/modules/users/users.controller.ts:56-61 | the organization a relation points at, found exactly when that row is stored; a failed lookup gives none |
| Db.IssuanceOf | apps/server/src/modules/oid4vc/oid4vc.controller.ts:227 | the application's issuance is found exactly when a row for it exists |
| ApplicationsService.MaxIndex | apps/server/src/modules/applications/applications.service.ts:34-38 | the maximum `applicationIndex` of the template's rows, or 0 when it has none |
| ApplicationsService.NextIndexIsFresh | apps/server/src/modules/applications/applications.service.ts:34-44 | the allocated index `(max \|\| 0) + 1` is at least 1, is 1 for a template without rows, and exceeds every index the template already uses |
| ApplicationsService.AllocationIsConsecutive | apps/server/src/modules/applications/applications.service.ts:39-44 | after allocating, the next allocation for the template is one higher |
| ApplicationsService.LinkedRows | apps/server/src/modules/applications/applications.service.ts:24-49 | `linkIssuance` adds at most one row, and one exactly when the application is approved, has a template and has no issuance yet |
| ApplicationsService.LinkKeepsIssuancesValid | apps/server/src/modules/applications/applications.service.ts:24-49 | linking keeps one issuance per application and unique indices per template |
| ApplicationsService.LinkIssuance | apps/server/src/modules/applications/applications.service.ts:24-49 | the issuance table grows by exactly the linked rows |
| ApplicationsService.Create | apps/server/src/modules/applications/applications.service.ts:51-56 | the record is saved under a fresh id, then linked, so one created `approved` gets an index |
| ApplicationsService.BulkRows | apps/server/src/modules/applications/applications.service.ts:67-73 | entity i of a batch gets index `max + 1 + i`, in input order, one row per entity |
| Entities.IdsOf | apps/server/src/modules/applications/applications.service.ts:75 | the ids of a sequence of records, in order: of a saved batch here, and of a notification page in `getNotifications` (users.controller.ts:187) |
| ApplicationsService.InsertAll | apps/server/src/modules/applications/applications.service.ts:75 | saving a batch adds exactly its ids and keeps every row under its own key |
| ApplicationsService.InsertAllContents | apps/server/src/modules/applications/applications.service.ts:75 | after saving a batch of distinct ids, each is stored as given and other rows are unchanged |
| ApplicationsService.BulkSameTemplateKeepsIndicesUnique | apps/server/src/modules/applications/applications.service.ts:61-73 | a batch for one template keeps `(template, applicationIndex)` unique |
| ApplicationsService.FreshApplications | apps/server/src/modules/applications/applications.service.ts:75 | the generated ids are new and pairwise distinct, and nothing else of the entities changes |
| ApplicationsService.BulkKeepsIssuancesValid | apps/server/src/modules/applications/applications.service.ts:58-76 | a batch of fresh, distinct applications keeps the issuance invariant |
| ApplicationsService.SaveBatch | apps/server/src/modules/applications/applications.service.ts:75 | stores the batch and exactly its issuance rows |
| ApplicationsService.CreateBulk | apps/server/src/modules/applications/applications.service.ts:58-76 | an empty batch or a first entity without a template fails without writing; otherwise the batch is saved iff its rows, with indices `max+1, max+2, …` counted from the first entity's template, keep every (template, index) pair unique. A batch of mixed templates that clashes with an existing index is rejected whole with nothing written, and a single-template batch is always saved. A saved batch gets fresh distinct ids and is stored in order |
| ApplicationsService.BulkRowsIgnoreIds | apps/server/src/modules/applications/applications.service.ts:66-76 | whether the unique constraint accepts a batch does not depend on the ids the batch is given |
| ApplicationsService.MergeApplicationProperties | apps/server/src/modules/applications/applications.service.ts:145-148 | each of status, body, claimed, approvalTimeStamp, template, user and email takes the supplied value, or keeps the stored one when none is supplied; an empty update is the identity, and repeating an update changes nothing |
| ApplicationsService.MergeApplication | apps/server/src/modules/applications/applications.service.ts:145-148 | `{...current, ...entity}` keeps the id, source, organization, flow, processor and batch of the stored record |
| ApplicationsService.FindByIdAndUpdate | apps/server/src/modules/applications/applications.service.ts:140-153 | a stored record is merged and saved and then linked again, so approving through an update allocates an index |
| FlowValidation.EmbeddingIsSubsequence | apps/server/src/utils/flows/index.ts:5-18 | every increasing embedding of the fields is found by the greedy test |
| FlowValidation.SubsequenceHasEmbedding | apps/server/src/utils/flows/index.ts:5-18 | the greedy test succeeds only when an embedding exists |
| FlowValidation.SubsequenceIffEmbedding | apps/server/src/utils/flows/index.ts:5-18 | the greedy test holds exactly when the fields are an in-order, not necessarily contiguous, subsequence |
| FlowValidation.IsSubsequence | apps/server/src/utils/flows/index.ts:5-18 | the greedy two-pointer test; a sequence it accepts is no longer than the template and uses only template elements |
| FlowValidation.SubsequenceStep | apps/server/src/utils/flows/index.ts:8-14 | one step of the loop: a match advances the sub-array cursor, a mismatch does not |
| FlowValidation.IsSubarray | apps/server/src/utils/flows/index.ts:5-18 | true exactly when the main array is non-empty and the sub-array is an in-order subsequence of it; an empty main array is always false |
| FlowValidation.NoOverlap | apps/server/src/utils/flows/index.ts:20-30 | true exactly when no element of the second array occurs in the first |
| FlowValidation.NoOverlapIffDisjoint | apps/server/src/utils/flows/index.ts:20-30 | the element-wise test agrees with disjointness of the two sets |
| FlowValidation.UsedFields | apps/server/src/utils/flows/index.ts:43-50 | the already used fields are exactly those of the flow's `userForm` and `issuerForm` steps |
| FlowValidation.FormDataErrorCases | apps/server/src/utils/flows/index.ts:54-71 | no error exactly when the fields are a subsequence of the kind's template fields and none is used by another step; a reused field reports FIELDS_EXIST_IN_PREVIOUS_STEP, even over a mismatch |
| FlowValidation.FormDataError | apps/server/src/utils/flows/index.ts:54-71 | the error `validateFormData` ends with; an accepted form has no more fields than the template, each of them a template field that no other form step uses |
| FlowValidation.ValidateFormData | apps/server/src/utils/flows/index.ts:32-72 | the loop that reassigns `error` computes the form error above |
| FlowValidation.AfterScheme | apps/server/src/utils/flows/index.ts:75 | the text after `http://` or `https://` is shorter than the url |
| FlowValidation.MatchesHttpUrlShape | apps/server/src/utils/flows/index.ts:75 | a matching url starts with `http://` or `https://`, has at least two more characters and no whitespace except possibly the one `.` may match |
| FlowValidation.MatchesHttpUrl | apps/server/src/utils/flows/index.ts:75 | `/^https?:\/\/[^\s/$.?#].[^\s]*$/` as a predicate; an accepted url starts with `http://` or `https://` and has at least nine characters |
| FlowValidation.ValidateApiStep | apps/server/src/utils/flows/index.ts:74-81 | no error exactly when the url matches the http(s) pattern |
| FlowValidation.ValidateRedirectUri | apps/server/src/utils/flows/index.ts:83-90 | no error exactly when the url matches the http(s) pattern |
| FlowValidation.ApiAndAuthorizeAgree | apps/server/src/utils/flows/index.ts:74-90 | `apiStep` and `authorize` steps give the same verdict and message |
| FlowValidation.ValidateTemplates | apps/server/src/utils/flows/index.ts:92-99 | a presentation step errors exactly when it names no template |
| FlowValidation.ValidateKyc | apps/server/src/utils/flows/index.ts:101-104 | a kyc step errors exactly when its level is neither `basic` nor `aml` |
| FlowValidation.StepConfigError | apps/server/src/utils/flows/index.ts:106-127 | an unlisted step type returns nothing; `review`, `finish` and `didLogin` give `{error: null}`; `kyc` fails exactly unless the level is `basic` or `aml`; `apiStep` and `authorize` fail exactly when the url does not match; `presentation` fails exactly without a template; a form step passes exactly when its fields are an in-order subsequence of the kind's template fields and none is reused, reporting a reuse before a mismatch |
| DidsController.OwnedIdentities | apps/server/src/modules/dids/dids.controller.ts:126-133 | exactly the identities whose organization is the given one |
| DidsController.IdentityGuard | apps/server/src/modules/dids/dids.controller.ts:83-91 | Forbidden exactly when the count reaches `maxIdentities`; below it, Conflict exactly when the lowercased url is already an alias |
| DidsController.IdentityGuardAfterCreate | apps/server/src/modules/dids/dids.controller.ts:83-101 | after a creation the same url (in any case) is refused: Conflict below the limit, Forbidden at it |
| DidsController.CreateIdentity | apps/server/src/modules/dids/dids.controller.ts:77-104 | on a guard error nothing is written; otherwise one identity with the lowercased url is stored for the organization and the url becomes an alias |
| DidsController.Toggle | apps/server/src/modules/dids/dids.controller.ts:112-114 | the visibility becomes the negation of the stored one |
| DidsController.ToggleInvolution | apps/server/src/modules/dids/dids.controller.ts:109-116 | two toggles restore the credential, and a toggle changes nothing but the flag |
| DidsController.ToggleCredentialVisibility | apps/server/src/modules/dids/dids.controller.ts:109-116 | a stored credential is stored toggled; a missing one is an error with nothing written |
| DidsController.OwnershipAsWritten | apps/server/src/modules/dids/dids.controller.ts:212-216 | as written: success exactly for a stored identity the organization owns; a missing identity is a server error when the organization owns any identity |
| DidsController.Ownership | apps/server/src/modules/dids/dids.controller.ts:212-216 | corrected: success exactly for a stored identity the organization owns, NO_OWNERSHIP otherwise |
| DidsController.OwnershipDiscrepancy | apps/server/src/modules/dids/dids.controller.ts:212-216 | the two checks differ exactly when the identity is missing and the organization owns some identity |
| DidsController.MissingIdentityIsServerError | apps/server/src/modules/dids/dids.controller.ts:212-216 | for an organization owning `i1` and an unknown identity id, the code as written fails with a server error where NO_OWNERSHIP is meant |
| DidsController.OwnedIdentity | apps/server/src/modules/dids/dids.controller.ts:206-216 | the check as the endpoints run it: success, with the stored identity, exactly when the identity is stored and belongs to the organization; a server error when the identity is missing and the organization owns some identity; NO_OWNERSHIP otherwise |
| DidsController.UpdateIdentity | apps/server/src/modules/dids/dids.controller.ts:143-153 | succeeds exactly for a stored identity of the caller's organization, whose supplied name and logo then replace the stored ones; a missing identity is a server error and one of another organization ORGANIZATION_NOT_FOUND, both with nothing written |
| DidsController.CredentialsOf | apps/server/src/modules/dids/dids.controller.ts:209-211 | exactly the stored credentials of the identity |
| DidsController.Presentable | apps/server/src/modules/dids/dids.controller.ts:225-229 | exactly the credentials whose type does not include `OpenBadgeCredential` |
| DidsController.PresentableIdempotent | apps/server/src/modules/dids/dids.controller.ts:225-229 | filtering twice is filtering once |
| DidsController.SiopCredentials | apps/server/src/modules/dids/dids.controller.ts:292-296 | the raw form of each presentable credential, in order |
| DidsController.OfferedName | apps/server/src/modules/dids/dids.controller.ts:243-245 | `type[1] ?? type[0]`, absent only for an empty type list |
| DidsController.Classify | apps/server/src/modules/dids/dids.controller.ts:230-257 | `openid-credential-offer://` gives `vc`; `siopv2://` gives `id` exactly for `id_token` and `vp` otherwise; anything else is rejected |
| DidsController.SchemesExclusive | apps/server/src/modules/dids/dids.controller.ts:230-247 | no request starts with both schemes |
| DidsController.ProcessIdentityRequest | apps/server/src/modules/dids/dids.controller.ts:201-266 | succeeds exactly when the organization owns the stored identity and the request has a known scheme; a missing identity of an organization owning identities is a server error; a foreign identity, or a missing one when the organization owns none, is NO_OWNERSHIP; both before the scheme is looked at; an unknown scheme is BAD_OID_CRED_OFFER; `vc` offers the configuration ids; `vp` offers the names of the credentials the wallet selects from the presentable ones; `id` offers none |
| DidsController.Wrap | apps/server/src/modules/dids/dids.controller.ts:252 | the offered configuration ids, in order |
| DidsController.OfferedNames | apps/server/src/modules/dids/dids.controller.ts:243-245 | the offered name of each required credential, in order |
| DidsController.DeleteIdentityCredential | apps/server/src/modules/dids/dids.controller.ts:392-412 | the ownership check as written first (a server error for a missing identity of an organization owning identities, NO_OWNERSHIP for a foreign one); then CRED_NOT_FOUND unless the credential belongs to the identity; on success exactly that credential is removed and nothing is returned |
| UsersController.Elevated | apps/server/src/modules/users/users.controller.ts:64-75 | all nine manage permissions become true and every other role field is kept |
| UsersController.ElevatedIdempotent | apps/server/src/modules/users/users.controller.ts:64-75 | elevating an elevated role changes nothing |
| UsersController.UnreadCount | apps/server/src/modules/users/users.controller.ts:77 | the unread count is at most the number of notifications |
| UsersController.UnreadCountPositive | apps/server/src/modules/users/users.controller.ts:77-80 | `unread > 0` holds exactly when some notification to the user is unread |
| UsersController.GetCurrentUser | apps/server/src/modules/users/users.controller.ts:55-84 | `isOwner` exactly when the organization is found and owned by the user; owners get the elevated role; `unread` is whether anything is unread; `subscribed` comes from the organization's subscription |
| UsersController.RotationGuard | apps/server/src/modules/users/users.controller.ts:146-149 | expiry is checked before the scope `rotation`, and the token passes only when both hold |
| UsersController.WithoutAbandoned | apps/server/src/modules/users/users.controller.ts:155-157 | the DID's holder is deleted exactly when it has neither e-mail nor organization |
| UsersController.RotateKeyForUser | apps/server/src/modules/users/users.controller.ts:142-161 | a failed guard writes nothing; an unheld DID is a server error; an abandoned holder is deleted; then the caller's DID becomes the new one, unless uniqueness or the caller's own deletion stops the save |
| UsersController.RotatedCallerHoldsDid | apps/server/src/modules/users/users.controller.ts:158-161 | after rotation the caller is the one holder of the DID |
| UsersController.Inbox | apps/server/src/modules/users/users.controller.ts:173-186 | exactly the notifications whose subject is the user |
| UsersController.MarkRead | apps/server/src/modules/users/users.controller.ts:188 | exactly the listed notifications become read; nothing else changes |
| UsersController.MarkReadLowersUnread | apps/server/src/modules/users/users.controller.ts:187-188 | marking never raises the unread count, and marking none of the user's notifications keeps it |
| UsersController.MarkAsRead | apps/server/src/modules/users/users.controller.ts:188 | the store's notifications become the marked ones |
| UsersController.GetNotifications | apps/server/src/modules/users/users.controller.ts:167-191 | returns the page window of the user's inbox with the total count, and marks read exactly the notifications on that page; a page below 1 is a database error with nothing marked |
| UsersController.MergePreferences | apps/server/src/modules/users/users.controller.ts:203-206 | the preference record keeps its id |
| UsersController.MergePreferencesIdempotent | apps/server/src/modules/users/users.controller.ts:202-206 | repeating a preference update changes nothing further |
| UsersController.MergePreferencesCompose | apps/server/src/modules/users/users.controller.ts:202-206 | two preference updates are one where the later supplied value wins |
| UsersController.PreferencesOf | apps/server/src/modules/users/users.controller.ts:198-201 | the user's preference record when its relation points at a stored one |
| UsersController.UpsertNotificationPreferences | apps/server/src/modules/users/users.controller.ts:196-214 | an existing record is updated in place; otherwise one is created from the defaults plus the body and linked to the user |
| UsersController.EmailVerificationGuard | apps/server/src/modules/users/users.controller.ts:248-256 | checks in order: expired, scope `email-verification`, context `user`, subject the caller; passes exactly when all hold |
| UsersController.VerifyEmailToken | apps/server/src/modules/users/users.controller.ts:244-260 | a failed check writes nothing; otherwise only `emailVerified` of the caller becomes true, and nothing is returned |
| UsersController.ExchangeSingleUseToken | apps/server/src/modules/users/users.controller.ts:267-279 | a missing payload or an expired token is BadRequest; another scope than `temporary-auth` is Forbidden; otherwise the new token keeps the application id with scope `flow-user-access-token` |
| UsersController.ExchangedTokenIsNotExchangeable | apps/server/src/modules/users/users.controller.ts:267-279 | an exchanged access token cannot itself be exchanged |
| Pagination.Window | apps/server/src/modules/users/users.controller.ts:185 | the page holds at most `size` rows, is empty past the end, is full while rows remain, and holds the rows from `(page-1)*size` on in order |
| Pagination.WindowIsOnPage | apps/server/src/modules/users/users.controller.ts:185 | a row is on the page exactly when its position is in the page's window |
| Pagination.SkipGap | apps/server/src/modules/applications/applications.controller.ts:133 | a later page starts at least one page size after an earlier one |
| Pagination.PagesAreDisjoint | apps/server/src/modules/applications/applications.controller.ts:133 | two different pages never cover the same row |
| Pagination.PagesCoverEveryRow | apps/server/src/modules/applications/applications.controller.ts:120-133 | every row is on page `k / size + 1` at offset `k % size` |
| OrganizationService.WithVerificationReset | apps/server/src/modules/organization/organization.service.ts:99-104 | a truthy contact e-mail other than the stored one forces `emailVerified` to false; any other update is left as supplied |
| OrganizationService.MergeOrganization | apps/server/src/modules/organization/organization.service.ts:105-108 | the merged organization keeps its id and subscription |
| OrganizationService.MergeOrganizationOverrides | apps/server/src/modules/organization/organization.service.ts:105-108 | each of name, logo, contactEmail, emailVerified, ownedBy, description, organizationUrl, country and industry takes the supplied value, or keeps the stored one when none is supplied; id and subscription are kept; an empty update is the identity |
| OrganizationService.VerificationAfterUpdate | apps/server/src/modules/organization/organization.service.ts:99-108 | a changed contact e-mail is stored unverified; otherwise `emailVerified` is the supplied value or the stored one |
| OrganizationService.SameEmailKeepsVerification | apps/server/src/modules/organization/organization.service.ts:99-108 | re-sending the stored contact e-mail changes nothing |
| OrganizationService.FindByIdAndUpdate | apps/server/src/modules/organization/organization.service.ts:94-111 | the caller's update object gets the reset written into it, and the stored organization becomes the merge of that update |
| OrganizationController.RotateOwnerGuard | apps/server/src/modules/organization/organization.controller.ts:93-96 | the scope `organization-rotation` is checked before expiry, and the token passes only when both hold |
| OrganizationController.RotationGuardsDisagreeOnOrder | apps/server/src/modules/organization/organization.controller.ts:94-96 | an expired token of the wrong scope is EXPIRED_TOKEN for a user rotation but INVALID_SCOPE for an owner rotation |
| OrganizationController.RotationTarget | apps/server/src/modules/organization/organization.controller.ts:97-101 | the token's organization and its owner, when both are stored |
| OrganizationController.Demoted | apps/server/src/modules/organization/organization.controller.ts:104-106 | the old owner no longer owns an organization; no user is added or removed |
| OrganizationController.RotateOwner | apps/server/src/modules/organization/organization.controller.ts:92-112 | a failed guard writes nothing; otherwise the old owner is demoted, `ownedBy` becomes the holder of the new DID and that user joins the organization; without such a holder the demotion and a cleared `ownedBy` persist and the call fails |
| OrganizationController.CreateOrganization | apps/server/src/modules/organization/organization.controller.ts:122-153 | NO_USER exactly when the user is absent, and success exactly when present: a new organization owned by the user with the contact e-mail, and the user linked to it with that e-mail |
| OrganizationController.DescriptionLimitIsInclusive | apps/server/src/modules/organization/organization.controller.ts:173-177 | a description of 600 characters passes and one of 601 does not |
| OrganizationController.UpdateOrganizationProfile | apps/server/src/modules/organization/organization.controller.ts:168-183 | a description over 600 characters is rejected with nothing written; otherwise the update goes through the service's merge and reset |
| OrganizationController.SumConcat | apps/server/src/modules/organization/organization.controller.ts:199-202 | the sum of invoice lines is additive over concatenation |
| OrganizationController.IssuedCount | apps/server/src/modules/organization/organization.controller.ts:204-208 | the count of issuances is at most the number of rows |
| OrganizationController.IssuedCountConcat | apps/server/src/modules/organization/organization.controller.ts:204-208 | the count is additive over new issuance rows |
| OrganizationController.GetUsage | apps/server/src/modules/organization/organization.controller.ts:190-214 | with a subscription id the usage is the sum of invoice quantities, otherwise the organization's issuance count; `max` is `maxCredentials ?? 5` |
| OrganizationController.SupportEmailGuard | apps/server/src/modules/organization/organization.controller.ts:234-239 | checks in order: expired, scope `email-verification`, context `org`; passes exactly when all hold |
| OrganizationController.VerificationContextsAreSeparate | apps/server/src/modules/organization/organization.controller.ts:238-239 | no token passes both the organization's and the user's e-mail verification |
| OrganizationController.VerifySupportEmailToken | apps/server/src/modules/organization/organization.controller.ts:233-245 | a failed check writes nothing; otherwise only the organization's `emailVerified` becomes true, and nothing is returned |
| NotificationService.CreatedNotifications | apps/server/src/services/notification.service.ts:17-29 | at most one draft, present exactly when the user has no preferences or wants credential notices, typed `APPLICATION_CREATED` with subject and target the application's user |
| NotificationService.Present | apps/server/src/services/notification.service.ts:29 | the present values, nothing dropped when all are present |
| NotificationService.PreferencesDecideNotices | apps/server/src/services/notification.service.ts:20-21 | no preferences and the default preferences both allow the notice; a `credential` flag set by an update decides it |
| NotificationService.StoredPreferences | apps/server/src/services/notification.service.ts:20 | the user's stored preferences, when linked |
| NotificationService.SaveNotifications | apps/server/src/services/notification.service.ts:30 | each draft is stored unread, in order, under a fresh id |
| NotificationService.ApplicationCreatedNotification | apps/server/src/services/notification.service.ts:14-31 | an application without a user fails with nothing stored; otherwise exactly the filtered notifications are appended, and nothing is returned |
| ApplicationsController.Draft | apps/server/src/modules/applications/applications.controller.ts:78-82 | a new application is pending, unclaimed, from source `application`, with the given body, user and e-mail |
| ApplicationsController.CreateNewApplication | apps/server/src/modules/applications/applications.controller.ts:74-85 | the application is created and returned, and then exactly its created-notifications are appended |
| ApplicationsController.CreateNewExternalApplication | apps/server/src/modules/applications/applications.controller.ts:96-107 | a missing or invalid e-mail is BAD_RECIPIENT_EMAIL with nothing written; otherwise one pending application with that e-mail is created under a fresh id, and nothing is returned |
| ApplicationsController.BuildQuery | apps/server/src/modules/applications/applications.controller.ts:120-133 | the query is the user's, takes one page at `(page-1)*size`, and filters on status unless it is empty or `all` |
| ApplicationsController.StatusFilterSemantics | apps/server/src/modules/applications/applications.controller.ts:125-129 | an empty or `all` status matches any of the user's applications, any other status exactly; absent, empty and `all` build the same query |
| EmailService.BadEmailRows | apps/server/src/modules/email/email.service.ts:342-357 | reported rows lie in `2 .. n+1` and strictly increase |
| EmailService.BadEmailRowsExact | apps/server/src/modules/email/email.service.ts:342-357 | row `i + 2` is reported exactly when recipient i's e-mail fails the pattern |
| EmailService.NoBadRowsIffAllValid | apps/server/src/modules/email/email.service.ts:358-361 | no row is reported exactly when every e-mail passes |
| EmailService.RenderRows | apps/server/src/modules/email/email.service.ts:360 | each row is rendered as its decimal string |
| EmailService.BadRowsMessage | apps/server/src/modules/email/email.service.ts:359-361 | the error message starts with `Bad emails provided in rows ` |
| EmailService.ReportedRowsReadBack | apps/server/src/modules/email/email.service.ts:360 | each reported row reads back as its number |
| EmailService.Enriched | apps/server/src/modules/email/email.service.ts:363-372 | an approved application whose body is the recipient, with its e-mail, the template and its organization, the batch, the current time and the uploader |
| EmailService.EnrichAll | apps/server/src/modules/email/email.service.ts:363-372 | one enriched application per recipient, in order |
| EmailService.BatchLogo | apps/server/src/modules/email/email.service.ts:378-383 | `organization.logo ?? default` |
| EmailService.DeferredLogo | apps/server/src/modules/email/email.service.ts:69-75 | `template.icon ?? organization.logo ?? default` |
| EmailService.EmptyLogoIsKept | apps/server/src/modules/email/email.service.ts:69-75 | only an absent logo falls through; an empty one is used |
| EmailService.BatchMails | apps/server/src/modules/email/email.service.ts:400-403 | one message per application, in order, to its e-mail |
| EmailService.ChargeAndNotify | apps/server/src/utils/payments/usage.ts:5-16 | a missing organization or subscription is a server error with no report and no mail; otherwise the recipient count is reported exactly when the subscription has a non-empty id, and each application is mailed either way |
| EmailService.Charged | apps/server/src/utils/payments/usage.ts:10-16 | at most one report, present exactly when the subscription id is truthy, for the organization and the recipient count |
| EmailService.ToText | apps/server/src/modules/email/email.service.ts:345-347 | `String(v)` as `test` applies it: a string is itself, an integer its decimal digits with a leading `-` when negative |
| EmailService.EmailText | apps/server/src/modules/email/email.service.ts:345-347 | an absent `email` is tested as `undefined`, any other value as its string conversion |
| EmailService.StoreBatch | apps/server/src/modules/email/email.service.ts:363-376 | the enriched batch is stored through `createBulk`, in order, with consecutive indices for the template |
| EmailService.SendBatchCredentials | apps/server/src/modules/email/email.service.ts:335-403 | any bad e-mail throws with the row list and nothing is created; otherwise each recipient becomes exactly one approved application, in order; then an organization without a subscription fails with no report and no mail, with the applications kept, and any other is reported (when its subscription id is truthy) and each application mailed |

## Left out

- Identity provider and cryptography: `rp.createRequest`, `verifyAuthResponse`, `validateJwt`, `createCredentialOffer`, `createTokenResponse`, `validateCredentialsResponse`, `verifyJWT`, credential and badge signing. The model takes their outcomes as parameters: the verified DID, the token payload, a pass/fail verdict, the offer text.
- `getSiopRequestById`, `tokenEndpoint` and `getCredOffer` (oid4vc.controller.ts:103-128, 179-186) are a record read or a call into the identity provider; they hold no rule of their own.
- Bitstring compression: the status list is the decoded `seq<bool>`; its gzip/base64 encoding is not modelled.
- Concurrency and transactions: everything runs sequentially. Each transaction is one atomic step, including the unawaited one in `linkIssuance`. The read-max-then-add-one race is not modelled.
- WebSocket delivery: `wsServer.broadcast` is an appended log of `(channel, message)` pairs.
- apps/server/src/modules/dids/ssl.service.ts, DNS resolution and certificate provisioning (`getIdentityStatus`, `provisionDidService`): network, filesystem and timer I/O.
- The repository CRUD services are abstract store operations. The "supplied fields override stored ones" merge is modelled where a core operation relies on it.
- SendGrid messages, HTML templates, Stripe calls and JWT signing are not modelled. A mail is recorded as its recipient, subject and logo. Invoice line quantities are a parameter of `GetUsage`. `reportUsageMetrics` appends a usage report when the organization's subscription has a Stripe id; the Stripe calls that follow, and their failures, are not modelled.
- The e-mail regular expressions (email.service.ts:345 and `validateEmail`) are predicate parameters, not modelled patterns.
- The commented-out code at applications.controller.ts:139-334 is not modelled.
- Nest modules, decorators, ORM annotations and the argon2 hook of the user entity are framework wiring, not modelled.
- `templatesService` and `stepActionsService` are used but not injected in the OpenID controller. They are modelled as the template and step-action tables.
- ApplicationsService.FindByIdAndUpdate: on a missing id TypeORM's `save` would insert a new row. The model returns an error and writes nothing.
- OrganizationService.FindByIdAndUpdate: the same insert-on-missing case is an error in the model.
- Oid4vcController.BindSession: `sessionsService.findByIdAndUpdate` on a `state` that names no stored session would insert a new session row. The model leaves the sessions unchanged in that case.
- UsersController.RotateKeyForUser: the same case (the caller deleted as the abandoned holder) is an error in the model. A save that would give two users one DID is a server error, standing for the database's uniqueness check.
- TypeORM drops `undefined` in a `where` clause, so a lookup by an absent id would match any row. The model treats such a lookup as not found.
- A null dereference in the source (for example a missing application, organization or flow) is a server error at the same point. Writes made before it persist.
- CredentialAssembly.ExpiryDate: a template's duration is taken to be a whole number of seconds; `parseInt` truncating a fractional duration and giving `NaN` for a non-numeric one are not modelled.
- Oid4vcController.NewSiopRequest: it returns the state string; the provider's `siopRequest` object the source returns is built from that state by `rp.createRequest`, which is not modelled.
- `parseInt` of a non-numeric page gives `NaN`. The model's page is an optional integer, so that case is not represented.
- UsersController.GetNotifications: a page below 1 gives a negative OFFSET. The model takes it as a database error.
- `PAGE_SIZE` comes from configuration that is not part of this model, so it is a `size` parameter. `paginate`'s response shape is reduced to items, page and count.
- ApplicationsController.BuildQuery: ordering by `createdAt` is not modelled; the query's rows are compared by their filter only.
- UsersController.Inbox: it does not state the newest-first order, only which notifications it holds.
- FlowValidation.UsedFields: the `null` entries `.flat()` keeps for non-form steps are dropped. No field id is `null`, so no verdict changes.
- `PUBLIC_BASE_URI` and `PUBLIC_CLIENT_URI` are taken as origins, so `new URL(path, base)` is `base + path`.
- Badge fields (`badgeFields.description`, `criteria`) and the pass-through client name, image and redirect fields of a processed request are not modelled.
- `UpdateDidDTO` is reduced to the identity's name and logo.
- Uniqueness of user e-mails is not modelled.
- The organization entity's `emailVerified` default is not part of this model; `CreateOrganization` takes it to be false.
- Lowercasing covers ASCII letters only. String lengths are counted in characters, not UTF-16 code units.
- A recipient's e-mail is tested by the address pattern through its string conversion: an absent e-mail is the text `undefined`, `null` is `null`, an integer its decimal digits, an object `[object Object]`. JSON arrays and fractional numbers are not part of the `Json` model, so their conversions are not modelled.
- Notification preferences are read through the user's stored relation, loaded with the user.
- `obtainIdentityCredentials`, `createPresentation` and `processSiopRequest` are provider I/O. Only their shared ownership check and credential filter are modelled.

## Findings

| source | as written | input that shows it | evidently intended | confidence | as-written member | corrected member |
|---|---|---|---|---|---|---|
| apps/server/src/modules/dids/dids.controller.ts:212-216 | `organization.identities.find((i) => i.id === identity.id)` reads `identity.id` before the `!identity` test, so a missing identity throws a TypeError (a 500) whenever the organization owns any identity; the same lines recur at 403-407 in `deleteIdentityCredential`. The endpoint models, through `OwnedIdentity`, follow the code as written | an organization owning identity `i1`, called with an identity id that is not stored | a missing or foreign identity is NotFound(NO_OWNERSHIP), as the guard on line 215 says | not executed | DidsController.OwnershipAsWritten, DidsController.MissingIdentityIsServerError | DidsController.Ownership |
