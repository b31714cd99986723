/** The pure parts of credential issuance in `sendCredential`
    (apps/server/src/modules/oid4vc/oid4vc.controller.ts): the revocation
    status entry (section 2.1 of W3C Bitstring Status List v1.0), the expiry
    date, the body precedence, and setting the claim bit in the template's
    decoded status list. */
module CredentialAssembly {
  import opened Common
  import opened Entities

  const StatusEntryType := "BitstringStatusListEntry"
  const RevocationPurpose := "revocation"

  /** `new URL('/api/credentials/{templateId}/status/1', PUBLIC_BASE_URI)`,
      with the base taken to be an origin. */
  function StatusUrl(base: string, templateId: Id): (url: string)
    ensures StartsWith(url, base)
    ensures EndsWith(url, "/api/credentials/" + templateId + "/status/1")
  {
    var path := "/api/credentials/" + templateId + "/status/1";
    assert (base + path)[|base + path| - |path|..] == path;
    base + path
  }

  datatype StatusEntry = StatusEntry(
    id: string,
    entryType: string,
    purpose: string,
    statusListIndex: string,
    statusListCredential: string)

  /** The `credentialStatus` extra of an issued credential. */
  function CredentialStatus(url: string, index: nat): (e: StatusEntry)
    ensures e.entryType == StatusEntryType && e.purpose == RevocationPurpose
    ensures e.statusListCredential == url
    ensures e.id == url + "#" + e.statusListIndex
    ensures (forall k :: 0 <= k < |e.statusListIndex| ==> IsDigit(e.statusListIndex[k]))
      && ParseNat(e.statusListIndex) == index
  {
    ParseNatToString(index);
    var digits := NatToString(index);
    StatusEntry(url + "#" + digits, StatusEntryType, RevocationPurpose, digits, url)
  }

  /** Two issuances of one status list never share a status entry id. */
  lemma StatusIdsDistinct(url: string, i: nat, j: nat)
    requires i != j
    ensures CredentialStatus(url, i).id != CredentialStatus(url, j).id
  {
    var a := CredentialStatus(url, i);
    var b := CredentialStatus(url, j);
    var p := |url| + 1;
    assert a.statusListIndex == a.id[p..];
    assert b.statusListIndex == b.id[p..];
  }

  /** `Math.floor(approvalTimeStamp.getTime() / 1000) + duration`, in epoch
      seconds. */
  function ExpiryDate(approvalMs: int, duration: int): (expiry: int)
    ensures (expiry - duration) * 1000 <= approvalMs < (expiry - duration + 1) * 1000
  {
    approvalMs / 1000 + duration
  }

  /** `template.icon ?? organization.logo ?? null`: `??` only skips an absent
      value, so an empty icon is kept. */
  function LogoUri(icon: Option<string>, logo: Option<string>): (j: Json)
    ensures icon.Some? ==> j == JStr(icon.value)
    ensures icon.None? && logo.Some? ==> j == JStr(logo.value)
    ensures icon.None? && logo.None? ==> j == JNull
  {
    match icon
    case Some(i) => JStr(i)
    case None => if logo.Some? then JStr(logo.value) else JNull
  }

  const Enrichment := "enrichment"

  /** The body of a standard credential:
      `{...prefilledFields, ...application.body, enrichment: {logo_uri}}`. */
  function StandardBody(prefilled: map<string, Json>, body: map<string, Json>, logoUri: Json): (r: map<string, Json>)
    ensures forall k :: k in r <==> k in prefilled || k in body || k == Enrichment
    ensures r[Enrichment] == JObj(map["logo_uri" := logoUri])
    ensures forall k | k in body && k != Enrichment :: r[k] == body[k]
    ensures forall k | k in prefilled && k !in body && k != Enrichment :: r[k] == prefilled[k]
  {
    (prefilled + body)[Enrichment := JObj(map["logo_uri" := logoUri])]
  }

  /** A badge carries the template's `type` "badge"; every other template
      issues a standard credential. */
  predicate IsBadge(t: Template)
  {
    t.kind == "badge"
  }

  /** `bitstring.set(applicationIndex, true)` on the decoded list; an index
      beyond the list is rejected by the bitstring library. */
  function ClaimBit(bits: seq<bool>, index: nat): (r: Result<seq<bool>>)
    ensures r.Ok? <==> index < |bits|
    ensures r.Ok? ==> |r.value| == |bits| && r.value[index]
    ensures r.Ok? ==> forall k :: 0 <= k < |bits| && k != index ==> r.value[k] == bits[k]
  {
    if index < |bits| then Ok(bits[index := true])
    else Err(ServerError("status list index out of range"))
  }

  /** Setting a claim bit twice leaves the list as setting it once, and the
      claims of two applications commute. */
  lemma ClaimBitIdempotentAndCommutes(bits: seq<bool>, i: nat, j: nat)
    requires i < |bits| && j < |bits|
    ensures ClaimBit(ClaimBit(bits, i).value, i) == ClaimBit(bits, i)
    ensures ClaimBit(ClaimBit(bits, i).value, j).value == ClaimBit(ClaimBit(bits, j).value, i).value
  {
    var once := bits[i := true];
    assert once[i := true] == once;
  }
}
