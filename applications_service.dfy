/** The application service (apps/server/src/modules/applications/applications.service.ts):
    creation, bulk creation and merge-updates of applications, and the
    allocator that gives an approved application its index in the
    template's revocation status list. */
module ApplicationsService {
  import opened Common
  import opened Entities
  import opened Db

  // ---------------------------------------------------------------------
  // Index allocation
  // ---------------------------------------------------------------------

  /** `maximum('applicationIndex', {template})`, with 0 for a template that
      has no issuance yet (`maxIndex || 0`). */
  function MaxIndex(rows: seq<Issuance>, t: Id): (m: nat)
    ensures forall k :: 0 <= k < |rows| && rows[k].template == Some(t) ==> rows[k].applicationIndex <= m
    ensures m == 0 || exists k :: 0 <= k < |rows| && rows[k].template == Some(t) && rows[k].applicationIndex == m
  {
    if rows == [] then 0
    else
      var rest := MaxIndex(rows[..|rows| - 1], t);
      var last := rows[|rows| - 1];
      assert forall k :: 0 <= k < |rows| - 1 ==> rows[..|rows| - 1][k] == rows[k];
      if last.template == Some(t) && last.applicationIndex > rest then last.applicationIndex else rest
  }

  /** The index a new issuance for template `t` receives. */
  function NextIndex(rows: seq<Issuance>, t: Id): nat
  {
    MaxIndex(rows, t) + 1
  }

  /** The allocator acts only for an approved application that has a
      template and no issuance yet. */
  predicate Allocates(rows: seq<Issuance>, e: Application)
  {
    e.status == ApprovedStatus && e.template.Some? && !HasIssuance(rows, e.id)
  }

  /** The rows `linkIssuance` adds for `e`: one, or none. */
  function LinkedRows(rows: seq<Issuance>, e: Application): (added: seq<Issuance>)
    ensures |added| <= 1
    ensures |added| == 1 <==> Allocates(rows, e)
    ensures |added| == 1 ==> added[0].application == e.id && added[0].template == e.template
  {
    if Allocates(rows, e) then [Issuance(e.id, e.template, NextIndex(rows, e.template.value))] else []
  }

  /** A fresh index is strictly greater than every index already held in its
      template, and therefore 1 for a template with no issuance. */
  lemma NextIndexIsFresh(rows: seq<Issuance>, t: Id)
    ensures NextIndex(rows, t) >= 1
    ensures forall k :: 0 <= k < |rows| && rows[k].template == Some(t) ==> rows[k].applicationIndex < NextIndex(rows, t)
    ensures (forall k :: 0 <= k < |rows| ==> rows[k].template != Some(t)) ==> NextIndex(rows, t) == 1
  {
  }

  /** Allocating twice in a row for the same template hands out consecutive
      indices: 1 then 2 on an empty template. */
  lemma AllocationIsConsecutive(rows: seq<Issuance>, a: Id, t: Id)
    ensures NextIndex(rows + [Issuance(a, Some(t), NextIndex(rows, t))], t) == NextIndex(rows, t) + 1
  {
    var rows' := rows + [Issuance(a, Some(t), NextIndex(rows, t))];
    var m := MaxIndex(rows', t);
    assert rows'[|rows|].applicationIndex <= m;
    forall k | 0 <= k < |rows'| && rows'[k].template == Some(t)
      ensures rows'[k].applicationIndex <= NextIndex(rows, t)
    {
      if k < |rows| {
        assert rows'[k] == rows[k];
      }
    }
  }

  /** The allocated row never breaks the issuance table's constraints: the
      new index collides with no index of its template, and the application
      had no row before. */
  lemma LinkKeepsIssuancesValid(rows: seq<Issuance>, apps: set<Id>, e: Application)
    requires IssuancesValid(rows, apps) && e.id in apps
    ensures IssuancesValid(rows + LinkedRows(rows, e), apps)
  {
    if Allocates(rows, e) {
      var t := e.template.value;
      var rows' := rows + LinkedRows(rows, e);
      NextIndexIsFresh(rows, t);
      forall i, j | 0 <= i < j < |rows'| && rows'[i].template.Some? && rows'[i].template == rows'[j].template
        ensures rows'[i].applicationIndex != rows'[j].applicationIndex
      {
        if j == |rows| {
          assert rows'[i] == rows[i];
        }
      }
      forall i, j | 0 <= i < j < |rows'|
        ensures rows'[i].application != rows'[j].application
      {
        if j == |rows| {
          assert rows'[i] == rows[i];
        }
      }
    }
  }

  /** `linkIssuance`: for an approved application that has no issuance yet,
      insert one with the next index of its template. An application without
      a template fails inside the detached transaction, which the caller
      never observes, so nothing is written. */
  method LinkIssuance(db: Store, e: Application)
    requires db.Valid() && e.id in db.applications
    modifies db`issuances
    ensures db.Valid()
    ensures db.issuances == old(db.issuances) + LinkedRows(old(db.issuances), e)
  {
    if e.status == ApprovedStatus {
      if HasIssuance(db.issuances, e.id) {
        return;
      }
      if e.template.None? {
        return;
      }
      var t := e.template.value;
      var maxIndex := MaxIndex(db.issuances, t);
      LinkKeepsIssuancesValid(db.issuances, db.applications.Keys, e);
      db.issuances := db.issuances + [Issuance(e.id, e.template, maxIndex + 1)];
    }
  }

  // ---------------------------------------------------------------------
  // Create
  // ---------------------------------------------------------------------

  /** `create`: save the new application under a fresh id, then link its
      issuance, so an application created as approved gets an index. */
  method Create(db: Store, draft: Application) returns (a: Application)
    requires db.Valid()
    modifies db`applications, db`issuances
    ensures db.Valid()
    ensures a == draft.(id := a.id) && a.id !in old(db.applications)
    ensures db.applications == old(db.applications)[a.id := a]
    ensures !HasIssuance(old(db.issuances), a.id)
    ensures db.issuances == old(db.issuances) + LinkedRows(old(db.issuances), a)
  {
    var id := FreshKey(db.applications.Keys);
    a := draft.(id := id);
    db.applications := db.applications[id := a];
    assert IssuancesValid(db.issuances, old(db.applications).Keys);
    LinkIssuance(db, a);
  }

  // ---------------------------------------------------------------------
  // Bulk create
  // ---------------------------------------------------------------------

  /** The issuance rows `createBulk` attaches: the i-th application gets
      index `base + 1 + i`. */
  function BulkRows(apps: seq<Application>, base: nat): (rows: seq<Issuance>)
    ensures |rows| == |apps|
    ensures forall i :: 0 <= i < |apps| ==>
      rows[i] == Issuance(apps[i].id, apps[i].template, base + 1 + i)
  {
    seq(|apps|, i requires 0 <= i < |apps| => Issuance(apps[i].id, apps[i].template, base + 1 + i))
  }

  /** Saving a batch one record at a time. */
  function InsertAll(m: map<Id, Application>, apps: seq<Application>): (r: map<Id, Application>)
    decreases |apps|
    ensures forall k :: k in r <==> k in m || k in IdsOf(apps, ApplicationId)
    ensures (forall k | k in m :: m[k].id == k) ==> forall k | k in r :: r[k].id == k
  {
    if apps == [] then m
    else
      var r := InsertAll(m[apps[0].id := apps[0]], apps[1..]);
      assert IdsOf(apps, ApplicationId) == [apps[0].id] + IdsOf(apps[1..], ApplicationId);
      r
  }

  /** Each saved record of a batch with distinct ids is found under its id,
      and every other record is left as it was. */
  lemma {:induction false} InsertAllContents(m: map<Id, Application>, apps: seq<Application>)
    requires forall i, j :: 0 <= i < j < |apps| ==> apps[i].id != apps[j].id
    ensures forall i :: 0 <= i < |apps| ==> InsertAll(m, apps)[apps[i].id] == apps[i]
    ensures forall k | k in m && k !in IdsOf(apps, ApplicationId) :: InsertAll(m, apps)[k] == m[k]
    decreases |apps|
  {
    if apps != [] {
      var rest := apps[1..];
      assert IdsOf(apps, ApplicationId) == [apps[0].id] + IdsOf(rest, ApplicationId);
      InsertAllContents(m[apps[0].id := apps[0]], rest);
      assert apps[0].id !in IdsOf(rest, ApplicationId) by {
        forall j | 0 <= j < |rest| ensures rest[j].id != apps[0].id {
          assert rest[j] == apps[j + 1];
        }
      }
      forall i | 0 < i < |apps|
        ensures InsertAll(m, apps)[apps[i].id] == apps[i]
      {
        assert rest[i - 1] == apps[i];
      }
    }
  }

  /** When every application of a batch shares the first one's template,
      the consecutive indices collide with nothing already issued in it. */
  lemma BulkSameTemplateKeepsIndicesUnique(rows: seq<Issuance>, apps: seq<Application>, t: Id)
    requires UniqueIndices(rows)
    requires forall i :: 0 <= i < |apps| ==> apps[i].template == Some(t)
    ensures UniqueIndices(rows + BulkRows(apps, MaxIndex(rows, t)))
  {
    var rows' := rows + BulkRows(apps, MaxIndex(rows, t));
    forall i, j | 0 <= i < j < |rows'| && rows'[i].template.Some? && rows'[i].template == rows'[j].template
      ensures rows'[i].applicationIndex != rows'[j].applicationIndex
    {
      if j >= |rows| && i < |rows| {
        assert rows'[i] == rows[i];
        assert rows'[j].template == Some(t);
      }
    }
  }

  /** Whether the unique constraint accepts a batch depends on its templates
      and positions only, not on the ids the batch is given. */
  lemma BulkRowsIgnoreIds(rows: seq<Issuance>, a: seq<Application>, b: seq<Application>, base: nat)
    requires |a| == |b|
    requires forall k :: 0 <= k < |a| ==> a[k].template == b[k].template
    ensures UniqueIndices(rows + BulkRows(a, base)) <==> UniqueIndices(rows + BulkRows(b, base))
  {
    var ra := rows + BulkRows(a, base);
    var rb := rows + BulkRows(b, base);
    forall k | 0 <= k < |ra|
      ensures ra[k].template == rb[k].template && ra[k].applicationIndex == rb[k].applicationIndex
    {
      if k < |rows| {
        assert ra[k] == rows[k] == rb[k];
      } else {
        assert ra[k] == BulkRows(a, base)[k - |rows|];
        assert rb[k] == BulkRows(b, base)[k - |rows|];
      }
    }
  }

  /** The ids the ORM generates for a batch: fresh and pairwise distinct. */
  method FreshApplications(used: set<Id>, entities: seq<Application>) returns (created: seq<Application>)
    ensures |created| == |entities|
    ensures forall k :: 0 <= k < |entities| ==> created[k] == entities[k].(id := created[k].id) && created[k].id !in used
    ensures forall k, l :: 0 <= k < l < |entities| ==> created[k].id != created[l].id
  {
    created := [];
    var taken := used;
    var i := 0;
    while i < |entities|
      invariant 0 <= i <= |entities| && |created| == i
      invariant forall k :: 0 <= k < i ==> created[k] == entities[k].(id := created[k].id) && created[k].id !in used
      invariant forall k, l :: 0 <= k < l < i ==> created[k].id != created[l].id
      invariant taken == used + set k | 0 <= k < i :: created[k].id
    {
      var id := FreshKey(taken);
      created := created + [entities[i].(id := id)];
      taken := taken + {id};
      i := i + 1;
    }
  }

  /** Saving a batch of fresh applications with their rows keeps the
      issuance table valid whenever the unique constraint accepts it. */
  lemma BulkKeepsIssuancesValid(rows: seq<Issuance>, apps: map<Id, Application>, created: seq<Application>, base: nat)
    requires IssuancesValid(rows, apps.Keys)
    requires forall k :: 0 <= k < |created| ==> created[k].id !in apps
    requires forall k, l :: 0 <= k < l < |created| ==> created[k].id != created[l].id
    requires UniqueIndices(rows + BulkRows(created, base))
    ensures IssuancesValid(rows + BulkRows(created, base), InsertAll(apps, created).Keys)
  {
    var bulk := BulkRows(created, base);
    var rows' := rows + bulk;
    forall k | 0 <= k < |rows'|
      ensures rows'[k].application in InsertAll(apps, created).Keys
    {
      if k >= |rows| {
        assert rows'[k] == bulk[k - |rows|];
      } else {
        assert rows'[k] == rows[k];
      }
    }
    forall a, b | 0 <= a < b < |rows'|
      ensures rows'[a].application != rows'[b].application
    {
      if b >= |rows| {
        assert rows'[b] == bulk[b - |rows|];
        if a >= |rows| {
          assert rows'[a] == bulk[a - |rows|];
        } else {
          assert rows'[a] == rows[a];
        }
      } else {
        assert rows'[a] == rows[a] && rows'[b] == rows[b];
      }
    }
  }

  /** The single `save` of a batch and its issuance rows, once the unique
      constraint has accepted them. */
  method SaveBatch(db: Store, created: seq<Application>, base: nat)
    requires db.Valid()
    requires forall k :: 0 <= k < |created| ==> created[k].id !in db.applications
    requires forall k, l :: 0 <= k < l < |created| ==> created[k].id != created[l].id
    requires UniqueIndices(db.issuances + BulkRows(created, base))
    modifies db`applications, db`issuances
    ensures db.Valid()
    ensures db.applications == InsertAll(old(db.applications), created)
    ensures db.issuances == old(db.issuances) + BulkRows(created, base)
  {
    BulkKeepsIssuancesValid(db.issuances, db.applications, created, base);
    db.applications := InsertAll(db.applications, created);
    db.issuances := db.issuances + BulkRows(created, base);
  }

  /** `createBulk`: read the maximum index of the FIRST application's
      template once, give the i-th application index `max + 1 + i`, and save
      all of them in one statement, which the unique constraint rejects as a
      whole when a batch of mixed templates clashes with an index already
      issued. An empty batch, or a first application without a template,
      dereferences `undefined`. */
  method CreateBulk(db: Store, entities: seq<Application>) returns (r: Result<seq<Application>>)
    requires db.Valid()
    modifies db`applications, db`issuances
    ensures db.Valid()
    ensures (|entities| == 0 || entities[0].template.None?) ==> r.Err?
    ensures r.Err? ==> db.applications == old(db.applications) && db.issuances == old(db.issuances)
    ensures r.Ok? ==> |r.value| == |entities|
    ensures r.Ok? ==> forall i :: 0 <= i < |entities| ==>
      r.value[i] == entities[i].(id := r.value[i].id) && r.value[i].id !in old(db.applications)
    ensures r.Ok? ==> forall i, j :: 0 <= i < j < |entities| ==> r.value[i].id != r.value[j].id
    ensures r.Ok? ==> db.applications == InsertAll(old(db.applications), r.value)
    ensures r.Ok? ==> db.issuances == old(db.issuances) + BulkRows(r.value, MaxIndex(old(db.issuances), entities[0].template.value))
    ensures r.Ok? <==>
      && |entities| > 0 && entities[0].template.Some?
      && UniqueIndices(old(db.issuances) + BulkRows(entities, MaxIndex(old(db.issuances), entities[0].template.value)))
    ensures |entities| > 0 && entities[0].template.Some? && (forall i :: 0 <= i < |entities| ==> entities[i].template == entities[0].template) ==> r.Ok?
  {
    if |entities| == 0 || entities[0].template.None? {
      return Err(ServerError("entities[0].template is undefined"));
    }
    var maxIndex := MaxIndex(db.issuances, entities[0].template.value);
    var created := FreshApplications(db.applications.Keys, entities);
    var rows := BulkRows(created, maxIndex);
    BulkRowsIgnoreIds(db.issuances, created, entities, maxIndex);
    if forall k :: 0 <= k < |entities| ==> entities[k].template == entities[0].template {
      assert forall k :: 0 <= k < |created| ==> created[k].template == entities[0].template;
      BulkSameTemplateKeepsIndicesUnique(db.issuances, created, entities[0].template.value);
    }
    if !UniqueIndices(db.issuances + rows) {
      return Err(ServerError("unique_credential_issuance violated"));
    }
    SaveBatch(db, created, maxIndex);
    r := Ok(created);
  }

  // ---------------------------------------------------------------------
  // Merge-update
  // ---------------------------------------------------------------------

  /** The fields a caller may supply to `findByIdAndUpdate`. */
  datatype ApplicationPatch = ApplicationPatch(
    status: Patch<string>,
    body: Patch<map<string, Json>>,
    claimed: Patch<bool>,
    approvalTimeStamp: Patch<Option<int>>,
    template: Patch<Option<Id>>,
    user: Patch<Option<Id>>,
    email: Patch<Option<string>>)

  const NoChange := ApplicationPatch(Keep, Keep, Keep, Keep, Keep, Keep, Keep)

  /** `{...current, ...entity}`. */
  function MergeApplication(current: Application, p: ApplicationPatch): (r: Application)
    ensures r.id == current.id && r.source == current.source && r.organization == current.organization
    ensures r.flow == current.flow && r.processedBy == current.processedBy && r.batchIssuance == current.batchIssuance
  {
    current.(
      status := Patched(p.status, current.status),
      body := Patched(p.body, current.body),
      claimed := Patched(p.claimed, current.claimed),
      approvalTimeStamp := Patched(p.approvalTimeStamp, current.approvalTimeStamp),
      template := Patched(p.template, current.template),
      user := Patched(p.user, current.user),
      email := Patched(p.email, current.email))
  }

  /** A supplied field overrides the stored one and an unsupplied one keeps
      its stored value; merging twice is merging once. */
  lemma MergeApplicationProperties(current: Application, p: ApplicationPatch)
    ensures MergeApplication(current, NoChange) == current
    ensures MergeApplication(MergeApplication(current, p), p) == MergeApplication(current, p)
    ensures var r := MergeApplication(current, p);
      && (p.status.Set? ==> r.status == p.status.value) && (p.status.Keep? ==> r.status == current.status)
      && (p.user.Set? ==> r.user == p.user.value) && (p.user.Keep? ==> r.user == current.user)
      && (p.claimed.Set? ==> r.claimed == p.claimed.value) && (p.claimed.Keep? ==> r.claimed == current.claimed)
      && (p.body.Set? ==> r.body == p.body.value) && (p.body.Keep? ==> r.body == current.body)
      && (p.approvalTimeStamp.Set? ==> r.approvalTimeStamp == p.approvalTimeStamp.value)
      && (p.approvalTimeStamp.Keep? ==> r.approvalTimeStamp == current.approvalTimeStamp)
      && (p.template.Set? ==> r.template == p.template.value) && (p.template.Keep? ==> r.template == current.template)
      && (p.email.Set? ==> r.email == p.email.value) && (p.email.Keep? ==> r.email == current.email)
  {
  }

  /** `findByIdAndUpdate`: merge the supplied fields over the stored record,
      save, then link the issuance again, so that approving through an
      update allocates an index. */
  method FindByIdAndUpdate(db: Store, id: Id, p: ApplicationPatch) returns (r: Result<Application>)
    requires db.Valid()
    modifies db`applications, db`issuances
    ensures db.Valid()
    ensures id !in old(db.applications) ==> r.Err? && db.applications == old(db.applications) && db.issuances == old(db.issuances)
    ensures id in old(db.applications) ==>
      && r == Ok(MergeApplication(old(db.applications)[id], p))
      && db.applications == old(db.applications)[id := r.value]
      && db.issuances == old(db.issuances) + LinkedRows(old(db.issuances), r.value)
  {
    if id !in db.applications {
      return Err(ServerError("application not found"));
    }
    var updated := MergeApplication(db.applications[id], p);
    db.applications := db.applications[id := updated];
    LinkIssuance(db, updated);
    r := Ok(updated);
  }
}
