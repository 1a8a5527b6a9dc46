/** Deleting one job from the relational store, statement by statement, without relying on
    cascades, while documents shared with other jobs stay. */
module Deletion {
  import opened Wrappers

  type Id = string

  datatype Table =
    | ClaimEvidence | Claim | ReportAccess | DiscoveredIdentifier | DiscoveryEdge | SynthesisResult | AccountNode
    | SiteCheck | ScanRun | ReportRevision | AnalysisRevision | CollectionSnapshot | SourceObservation | SourceUse
    | ProviderAttempt | ProviderRun | OutboxMessage | JobEvent | IdempotencyRecord | JobAttempt | SearchJob
    | SourceDocument

  /** The columns that name other rows. `PayloadRun` is the one without a foreign key: it sits
      inside the payload of a message. */
  datatype Column =
    | ToJob | RefreshOf | ToAttempt | ToRun | ToCheck | ToObservation | ToAccount | ToUse | ToDocument
    | ToSnapshot | ToAnalysis | ToClaim | ToReport | PayloadRun

  datatype Key = Key(table: Table, id: Id)

  datatype Row = Row(links: map<Column, Id>, epoch: nat, data: string)

  type Rows = map<Key, Row>

  function Target(c: Column): Table {
    match c
    case ToJob => SearchJob
    case RefreshOf => SearchJob
    case ToAttempt => JobAttempt
    case ToRun => ProviderRun
    case ToCheck => SiteCheck
    case ToObservation => SourceObservation
    case ToAccount => AccountNode
    case ToUse => SourceUse
    case ToDocument => SourceDocument
    case ToSnapshot => CollectionSnapshot
    case ToAnalysis => AnalysisRevision
    case ToClaim => Claim
    case ToReport => ReportRevision
    case PayloadRun => ProviderRun
  }

  /** The columns a row of this table always fills. */
  function Mandatory(t: Table): set<Column> {
    match t
    case ClaimEvidence => {ToClaim, ToObservation}
    case Claim => {ToJob, ToAnalysis}
    case ReportAccess => {ToReport}
    case DiscoveredIdentifier => {ToJob, ToCheck}
    case DiscoveryEdge => {ToJob, ToRun, ToAccount}
    case SynthesisResult => {ToJob, ToRun}
    case AccountNode => {ToJob}
    case SiteCheck => {ToJob, ToRun}
    case ScanRun => {ToRun}
    case ReportRevision => {ToJob, ToAnalysis}
    case AnalysisRevision => {ToJob, ToSnapshot}
    case CollectionSnapshot => {ToJob}
    case SourceObservation => {ToJob, ToUse}
    case SourceUse => {ToRun, ToDocument}
    case ProviderAttempt => {ToRun}
    case ProviderRun => {ToJob, ToAttempt}
    case OutboxMessage => {}
    case JobEvent => {ToJob}
    case IdempotencyRecord => {ToJob}
    case JobAttempt => {ToJob}
    case SearchJob => {}
    case SourceDocument => {}
  }

  function Nullable(t: Table): set<Column> {
    match t
    case DiscoveryEdge => {ToCheck, ToObservation}
    case OutboxMessage => {PayloadRun}
    case SearchJob => {RefreshOf}
    case _ => {}
  }

  predicate Typed(rows: Rows) {
    forall k | k in rows :: Mandatory(k.table) <= rows[k].links.Keys <= Mandatory(k.table) + Nullable(k.table)
  }

  /** Every foreign key names an existing row. */
  predicate ForeignKeysHold(rows: Rows) {
    forall k, c | k in rows && c in rows[k].links && c != PayloadRun :: Key(Target(c), rows[k].links[c]) in rows
  }

  // ---------- Which job a row belongs to ----------

  /** The column through which a row of this table belongs to a job. */
  function OwnerColumn(t: Table): Option<Column> {
    match t
    case ClaimEvidence => Some(ToClaim)
    case ReportAccess => Some(ToReport)
    case ScanRun => Some(ToRun)
    case SourceUse => Some(ToRun)
    case ProviderAttempt => Some(ToRun)
    case OutboxMessage => Some(PayloadRun)
    case SearchJob => None
    case SourceDocument => None
    case _ => Some(ToJob)
  }

  function JobOfParent(rows: Rows, parent: Key): Option<Id> {
    if parent in rows && ToJob in rows[parent].links then Some(rows[parent].links[ToJob]) else None
  }

  function Owner(rows: Rows, k: Key): Option<Id>
    requires k in rows
  {
    if k.table.SearchJob? then Some(k.id)
    else
      match OwnerColumn(k.table)
      case None => None
      case Some(c) =>
        if c !in rows[k].links then None
        else if c == ToJob then Some(rows[k].links[c])
        else JobOfParent(rows, Key(Target(c), rows[k].links[c]))
  }

  predicate Owned(rows: Rows, k: Key, job: Id) {
    k in rows && Owner(rows, k) == Some(job)
  }

  /** Rows refer to rows of their own job; only refresh links and documents are shared. */
  predicate JobLocal(rows: Rows) {
    forall k, c | k in rows && c in rows[k].links && c != PayloadRun && c != RefreshOf && c != ToDocument ::
      Key(Target(c), rows[k].links[c]) in rows ==> Owner(rows, k) == Owner(rows, Key(Target(c), rows[k].links[c]))
  }

  predicate Sound(rows: Rows) {
    Typed(rows) && ForeignKeysHold(rows) && JobLocal(rows)
  }

  // ---------- What deleting achieves ----------

  function WithoutRefresh(row: Row, job: Id): Row {
    if RefreshOf in row.links && row.links[RefreshOf] == job then row.(links := row.links - {RefreshOf}) else row
  }

  /** No row refers to the job as the one it refreshes. */
  function Unlinked(rows: Rows, job: Id): Rows {
    map k | k in rows :: if k.table.SearchJob? then WithoutRefresh(rows[k], job) else rows[k]
  }

  /** Some run of the job used the document. */
  predicate UsedBy(rows: Rows, document: Id, job: Id) {
    exists u | u in rows && u.table.SourceUse? && ToDocument in rows[u].links ::
      rows[u].links[ToDocument] == document && Owner(rows, u) == Some(job)
  }

  /** Some run of another job uses the document. */
  predicate UsedElsewhere(rows: Rows, document: Id, job: Id) {
    exists u | u in rows && u.table.SourceUse? && ToDocument in rows[u].links ::
      rows[u].links[ToDocument] == document && Owner(rows, u) != Some(job)
  }

  predicate Orphaned(rows: Rows, k: Key, job: Id) {
    k.table.SourceDocument? && UsedBy(rows, k.id, job) && !UsedElsewhere(rows, k.id, job)
  }

  function AfterDeletion(rows: Rows, job: Id): Rows {
    var unlinked := Unlinked(rows, job);
    map k | k in rows && !Owned(rows, k, job) && !Orphaned(rows, k, job) :: unlinked[k]
  }

  // ---------- The order of the statements ----------

  /** The tables in the order in which they are cleared. */
  function Position(t: Table): nat {
    match t
    case ClaimEvidence => 0
    case Claim => 1
    case ReportAccess => 2
    case DiscoveredIdentifier => 3
    case DiscoveryEdge => 4
    case SynthesisResult => 5
    case AccountNode => 6
    case SiteCheck => 7
    case ScanRun => 8
    case ReportRevision => 9
    case AnalysisRevision => 10
    case CollectionSnapshot => 11
    case SourceObservation => 12
    case SourceUse => 13
    case ProviderAttempt => 14
    case ProviderRun => 15
    case OutboxMessage => 16
    case JobEvent => 17
    case IdempotencyRecord => 18
    case JobAttempt => 19
    case SearchJob => 20
    case SourceDocument => 21
  }

  /** A table is cleared only after every table that refers to it. */
  lemma ReferrersComeFirst(t: Table, c: Column)
    requires c in Mandatory(t) + Nullable(t) && c != PayloadRun && c != RefreshOf
    ensures Position(t) < Position(Target(c))
  {}

  /** The rows of the job are gone from the first `n` tables. */
  function Stage(rows: Rows, job: Id, n: nat): Rows {
    map k | k in rows && !(Owned(rows, k, job) && Position(k.table) < n) :: rows[k]
  }

  predicate NoRefresh(rows: Rows, job: Id) {
    forall k | k in rows && RefreshOf in rows[k].links :: rows[k].links[RefreshOf] != job
  }

  lemma StageKeepsForeignKeys(rows: Rows, job: Id, n: nat)
    requires Sound(rows) && NoRefresh(rows, job) && n <= 21
    ensures ForeignKeysHold(Stage(rows, job, n))
  {
    hide Sound, Owner, Position, Stage, Target;
    forall k, c | k in Stage(rows, job, n) && c in Stage(rows, job, n)[k].links && c != PayloadRun
      ensures Key(Target(c), Stage(rows, job, n)[k].links[c]) in Stage(rows, job, n)
    {
      StageMeans(rows, job, n);
      LinkInStage(rows, job, n, k, c);
    }
  }

  lemma StageMeans(rows: Rows, job: Id, n: nat)
    ensures forall k :: k in Stage(rows, job, n) <==> k in rows && !(Owned(rows, k, job) && Position(k.table) < n)
    ensures forall k | k in Stage(rows, job, n) :: Stage(rows, job, n)[k] == rows[k]
  {
    hide Owned, Position;
  }

  /** What soundness says of one link. */
  lemma LinkFacts(rows: Rows, k: Key, c: Column)
    requires Sound(rows) && k in rows && c in rows[k].links && c != PayloadRun
    ensures Key(Target(c), rows[k].links[c]) in rows
    ensures c in Mandatory(k.table) + Nullable(k.table)
    ensures c != RefreshOf && c != ToDocument ==> Owner(rows, k) == Owner(rows, Key(Target(c), rows[k].links[c]))
  {
    hide Owner, Target, Mandatory, Nullable;
  }

  lemma LinkInStage(rows: Rows, job: Id, n: nat, k: Key, c: Column)
    requires Sound(rows) && NoRefresh(rows, job) && n <= 21
    requires k in rows && !(Owned(rows, k, job) && Position(k.table) < n) && c in rows[k].links && c != PayloadRun
    ensures var target := Key(Target(c), rows[k].links[c]);
      target in rows && !(Owned(rows, target, job) && Position(target.table) < n)
  {
    LinkFacts(rows, k, c);
    SharedTargets();
    if c != RefreshOf {
      ReferrersComeFirst(k.table, c);
    }
    hide Sound, Position, Mandatory, Nullable;
  }

  lemma SharedTargets()
    ensures Target(RefreshOf) == SearchJob && Target(ToDocument) == SourceDocument && Position(SourceDocument) == 21
  {}

  /** `delete from table where column in ids` */
  function DeleteWhere(rows: Rows, t: Table, c: Column, ids: set<Id>): Rows {
    map k | k in rows && !(k.table == t && c in rows[k].links && rows[k].links[c] in ids) :: rows[k]
  }

  /** `delete from table where id in ids` */
  function DeleteIds(rows: Rows, t: Table, ids: set<Id>): Rows {
    map k | k in rows && !(k.table == t && k.id in ids) :: rows[k]
  }

  /** `select id from table where job_id = job` */
  function IdsOfJob(rows: Rows, t: Table, job: Id): set<Id> {
    set k | k in rows && k.table == t && ToJob in rows[k].links && rows[k].links[ToJob] == job :: k.id
  }

  /** The condition of a statement selects exactly the job's rows of its table. */
  predicate Selects(rows: Rows, job: Id, t: Table, c: Column, ids: set<Id>) {
    forall k | k in rows && k.table == t :: Owned(rows, k, job) <==> c in rows[k].links && rows[k].links[c] in ids
  }

  lemma DirectSelects(rows: Rows, job: Id, t: Table)
    requires OwnerColumn(t) == Some(ToJob)
    ensures Selects(rows, job, t, ToJob, {job})
  {}

  lemma IndirectSelects(rows: Rows, job: Id, t: Table, c: Column)
    requires OwnerColumn(t) == Some(c) && c != ToJob
    ensures Selects(rows, job, t, c, IdsOfJob(rows, Target(c), job))
  {
    forall k | k in rows && k.table == t
      ensures Owned(rows, k, job) <==> c in rows[k].links && rows[k].links[c] in IdsOfJob(rows, Target(c), job)
    {
      if c in rows[k].links {
        var parent := Key(Target(c), rows[k].links[c]);
        assert parent.id in IdsOfJob(rows, Target(c), job) <==> JobOfParent(rows, parent) == Some(job);
      }
    }
  }

  lemma StatementReachesStage(rows: Rows, job: Id, t: Table, c: Column, ids: set<Id>)
    requires Selects(rows, job, t, c, ids)
    ensures DeleteWhere(Stage(rows, job, Position(t)), t, c, ids) == Stage(rows, job, Position(t) + 1)
  {
    PositionIsUnique(t);
    hide Owner, Position;
    var before, after := Stage(rows, job, Position(t)), Stage(rows, job, Position(t) + 1);
    forall k
      ensures k in DeleteWhere(before, t, c, ids) <==> k in after
    {}
  }

  lemma PositionIsUnique(t: Table)
    ensures forall u: Table :: Position(u) == Position(t) ==> u == t
  {}

  lemma OwnerUnlinked(rows: Rows, job: Id, k: Key)
    requires k in rows
    ensures Owner(Unlinked(rows, job), k) == Owner(rows, k)
  {
    var after := Unlinked(rows, job);
    assert forall j | j in rows :: after[j].links == rows[j].links || after[j].links == rows[j].links - {RefreshOf};
    assert forall t :: OwnerColumn(t) != Some(RefreshOf);
  }

  lemma UnlinkedLinks(rows: Rows, job: Id, k: Key)
    requires k in rows
    ensures var links := Unlinked(rows, job)[k].links;
      && (forall c | c in links :: c in rows[k].links && links[c] == rows[k].links[c])
      && rows[k].links.Keys - {RefreshOf} <= links.Keys
      && (RefreshOf in links && k.table.SearchJob? ==> links[RefreshOf] != job)
  {}

  lemma RefreshIsNullable()
    ensures forall t: Table :: RefreshOf !in Mandatory(t)
    ensures forall t: Table :: RefreshOf in Nullable(t) ==> t.SearchJob?
  {}

  lemma UnlinkedIsSound(rows: Rows, job: Id)
    requires Sound(rows)
    ensures Sound(Unlinked(rows, job)) && NoRefresh(Unlinked(rows, job), job)
    ensures forall k | k in rows :: Owner(Unlinked(rows, job), k) == Owner(rows, k)
  {
    var after := Unlinked(rows, job);
    forall k | k in rows
      ensures Owner(after, k) == Owner(rows, k)
    {
      OwnerUnlinked(rows, job, k);
    }
    RefreshIsNullable();
    assert after.Keys == rows.Keys;
    hide Owner, Unlinked, Target, Mandatory, Nullable;
    forall k | k in rows
      ensures var links := after[k].links;
        && (forall c | c in links :: c in rows[k].links && links[c] == rows[k].links[c])
        && rows[k].links.Keys - {RefreshOf} <= links.Keys
        && (RefreshOf in links && k.table.SearchJob? ==> links[RefreshOf] != job)
    {
      UnlinkedLinks(rows, job, k);
    }
  }

  /** `delete from source_document where id in ids and not exists (a use of it)` */
  function DeleteUnused(rows: Rows, ids: set<Id>): Rows {
    map k | k in rows && !(k.table.SourceDocument? && k.id in ids && !Referenced(rows, k.id)) :: rows[k]
  }

  predicate Referenced(rows: Rows, document: Id) {
    exists u | u in rows && u.table.SourceUse? && ToDocument in rows[u].links :: rows[u].links[ToDocument] == document
  }

  /** The documents of the uses of these runs. */
  function DocumentsOf(rows: Rows, runs: set<Id>): set<Id> {
    set u | u in rows && u.table.SourceUse? && ToRun in rows[u].links && ToDocument in rows[u].links && rows[u].links[ToRun] in runs ::
      rows[u].links[ToDocument]
  }

  lemma DocumentsOfJob(rows: Rows, job: Id)
    requires Typed(rows)
    ensures forall d :: d in DocumentsOf(rows, IdsOfJob(rows, ProviderRun, job)) <==> UsedBy(rows, d, job)
  {
    IndirectSelects(rows, job, SourceUse, ToRun);
    var runs := IdsOfJob(rows, ProviderRun, job);
    forall d
      ensures d in DocumentsOf(rows, runs) <==> UsedBy(rows, d, job)
    {
      if u :| u in rows && u.table.SourceUse? && ToDocument in rows[u].links && rows[u].links[ToDocument] == d && Owned(rows, u, job) {
        assert d in DocumentsOf(rows, runs);
      }
      if d in DocumentsOf(rows, runs) {
        var u :| u in rows && u.table.SourceUse? && ToRun in rows[u].links && ToDocument in rows[u].links
          && rows[u].links[ToRun] in runs && rows[u].links[ToDocument] == d;
        assert Owned(rows, u, job);
      }
    }
  }

  lemma ReferencedElsewhere(rows: Rows, job: Id, d: Id)
    ensures Referenced(Stage(rows, job, 21), d) <==> UsedElsewhere(rows, d, job)
  {
    var stage := Stage(rows, job, 21);
    if Referenced(stage, d) {
      var u :| u in stage && u.table.SourceUse? && ToDocument in stage[u].links && stage[u].links[ToDocument] == d;
      assert !Owned(rows, u, job);
    }
    if UsedElsewhere(rows, d, job) {
      var u :| u in rows && u.table.SourceUse? && ToDocument in rows[u].links && rows[u].links[ToDocument] == d && !Owned(rows, u, job);
      assert u in stage;
    }
  }

  /** The last statement leaves exactly what deleting should leave. */
  lemma LastStatement(rows: Rows, job: Id)
    requires Sound(rows)
    ensures var unlinked := Unlinked(rows, job);
      DeleteUnused(Stage(unlinked, job, 21), DocumentsOf(unlinked, IdsOfJob(unlinked, ProviderRun, job))) == AfterDeletion(rows, job)
  {
    hide Sound, Typed, DocumentsOf, IdsOfJob, Owner, UsedBy, UsedElsewhere, Referenced, Position, Unlinked;
    var unlinked := Unlinked(rows, job);
    UnlinkedIsSound(rows, job);
    UnlinkedKeys(rows, job);
    SoundIsTyped(unlinked);
    DocumentsOfJob(unlinked, job);
    OnlyDocumentsAreLast(rows);
    var documents := DocumentsOf(unlinked, IdsOfJob(unlinked, ProviderRun, job));
    forall k
      ensures k in DeleteUnused(Stage(unlinked, job, 21), documents) <==> k in AfterDeletion(rows, job)
    {
      UsesUnlinked(rows, job, k.id);
      ReferencedElsewhere(unlinked, job, k.id);
    }
  }

  lemma SoundIsTyped(rows: Rows)
    requires Sound(rows)
    ensures Typed(rows)
  {
    hide Typed;
  }

  lemma UnlinkedKeys(rows: Rows, job: Id)
    ensures Unlinked(rows, job).Keys == rows.Keys
  {}

  lemma OnlyDocumentsAreLast(rows: Rows)
    ensures forall t: Table :: Position(t) < 21 <==> !t.SourceDocument?
    ensures forall k | k in rows && k.table.SourceDocument? :: Owner(rows, k).None?
  {}

  lemma UsesUnlinked(rows: Rows, job: Id, d: Id)
    requires forall k | k in rows :: Owner(Unlinked(rows, job), k) == Owner(rows, k)
    ensures UsedBy(Unlinked(rows, job), d, job) == UsedBy(rows, d, job)
    ensures UsedElsewhere(Unlinked(rows, job), d, job) == UsedElsewhere(rows, d, job)
  {
    hide Owner;
  }

  /** Removing unused documents breaks no foreign key. */
  lemma DocumentsKeepForeignKeys(rows: Rows, ids: set<Id>)
    requires ForeignKeysHold(rows) && Typed(rows)
    ensures ForeignKeysHold(DeleteUnused(rows, ids))
  {
    forall k, c | k in rows && c in rows[k].links && Target(c).SourceDocument?
      ensures Referenced(rows, rows[k].links[c])
    {
      OnlyUsesReferToDocuments(k.table, c);
    }
  }

  lemma OnlyUsesReferToDocuments(t: Table, c: Column)
    requires c in Mandatory(t) + Nullable(t) && Target(c).SourceDocument?
    ensures t.SourceUse? && c == ToDocument
  {}

  // ---------- The procedure ----------

  datatype Tombstone = Tombstone(fence: nat, deletedAt: real, expiresAt: real)

  const TOMBSTONE_SECONDS: real := 7.0 * 86_400.0

  class Store {
    var rows: Rows
    var tombstones: map<Id, Tombstone>

    /** One delete statement for the table that comes next in the order. */
    method Clear(ghost base: Rows, job: Id, t: Table, c: Column, ids: set<Id>)
      requires Sound(base) && NoRefresh(base, job) && Position(t) <= 20
      requires rows == Stage(base, job, Position(t)) && Selects(base, job, t, c, ids)
      modifies this`rows
      ensures rows == Stage(base, job, Position(t) + 1) && ForeignKeysHold(rows)
    {
      StatementReachesStage(base, job, t, c, ids);
      StageKeepsForeignKeys(base, job, Position(t) + 1);
      rows := DeleteWhere(rows, t, c, ids);
    }

    /** Statements 1 to 7: claims, access states, identifiers, edges, results and accounts. */
    method ClearReport(ghost base: Rows, job: Id, claims: set<Id>, reports: set<Id>) returns (ghost history: seq<Rows>)
      requires Sound(base) && NoRefresh(base, job) && rows == Stage(base, job, 0)
      requires claims == IdsOfJob(base, Claim, job) && reports == IdsOfJob(base, ReportRevision, job)
      modifies this`rows
      ensures rows == Stage(base, job, 7)
      ensures |history| == 7 && forall i | 0 <= i < 7 :: ForeignKeysHold(history[i])
    {
      hide Sound, ForeignKeysHold, Stage, Selects, NoRefresh, IdsOfJob;
      SelectsAll(base, job);
      Clear(base, job, ClaimEvidence, ToClaim, claims);
      history := [rows];
      Clear(base, job, Claim, ToJob, {job});
      history := history + [rows];
      Clear(base, job, ReportAccess, ToReport, reports);
      history := history + [rows];
      Clear(base, job, DiscoveredIdentifier, ToJob, {job});
      history := history + [rows];
      Clear(base, job, DiscoveryEdge, ToJob, {job});
      history := history + [rows];
      Clear(base, job, SynthesisResult, ToJob, {job});
      history := history + [rows];
      Clear(base, job, AccountNode, ToJob, {job});
      history := history + [rows];
    }

    /** Statements 8 to 14: checks, scans, revisions, snapshots, observations and source uses. */
    method ClearCollected(ghost base: Rows, job: Id, runs: set<Id>) returns (ghost history: seq<Rows>)
      requires Sound(base) && NoRefresh(base, job) && rows == Stage(base, job, 7)
      requires runs == IdsOfJob(base, ProviderRun, job)
      modifies this`rows
      ensures rows == Stage(base, job, 14)
      ensures |history| == 7 && forall i | 0 <= i < 7 :: ForeignKeysHold(history[i])
    {
      hide Sound, ForeignKeysHold, Stage, Selects, NoRefresh, IdsOfJob;
      SelectsAll(base, job);
      Clear(base, job, SiteCheck, ToJob, {job});
      history := [rows];
      Clear(base, job, ScanRun, ToRun, runs);
      history := history + [rows];
      Clear(base, job, ReportRevision, ToJob, {job});
      history := history + [rows];
      Clear(base, job, AnalysisRevision, ToJob, {job});
      history := history + [rows];
      Clear(base, job, CollectionSnapshot, ToJob, {job});
      history := history + [rows];
      Clear(base, job, SourceObservation, ToJob, {job});
      history := history + [rows];
      Clear(base, job, SourceUse, ToRun, runs);
      history := history + [rows];
    }

    /** Statements 15 to 20: attempts, runs, messages, events, idempotency keys and the job attempt. */
    method ClearWork(ghost base: Rows, job: Id, runs: set<Id>) returns (ghost history: seq<Rows>)
      requires Sound(base) && NoRefresh(base, job) && rows == Stage(base, job, 14)
      requires runs == IdsOfJob(base, ProviderRun, job)
      modifies this`rows
      ensures rows == Stage(base, job, 20)
      ensures |history| == 6 && forall i | 0 <= i < 6 :: ForeignKeysHold(history[i])
    {
      hide Sound, ForeignKeysHold, Stage, Selects, NoRefresh, IdsOfJob;
      SelectsAll(base, job);
      Clear(base, job, ProviderAttempt, ToRun, runs);
      history := [rows];
      Clear(base, job, ProviderRun, ToJob, {job});
      history := history + [rows];
      Clear(base, job, OutboxMessage, PayloadRun, runs);
      history := history + [rows];
      Clear(base, job, JobEvent, ToJob, {job});
      history := history + [rows];
      Clear(base, job, IdempotencyRecord, ToJob, {job});
      history := history + [rows];
      Clear(base, job, JobAttempt, ToJob, {job});
      history := history + [rows];
    }

    /** Delete a job whose row is locked. `history` holds the rows after each statement. */
    method DeleteLockedJob(job: Id, now: real) returns (ghost history: seq<Rows>)
      requires Key(SearchJob, job) in rows && Sound(rows)
      modifies this
      ensures rows == AfterDeletion(old(rows), job)
      ensures forall i | 0 <= i < |history| :: ForeignKeysHold(history[i])
      ensures |history| == 23 && history[22] == rows
      ensures tombstones ==
        old(tombstones)[job := Tombstone(old(rows)[Key(SearchJob, job)].epoch + 1, now, now + TOMBSTONE_SECONDS)]
    {
      hide Sound, ForeignKeysHold, Stage, Selects, Unlinked, AfterDeletion, NoRefresh, IdsOfJob, DocumentsOf;
      var epoch := rows[Key(SearchJob, job)].epoch + 1;
      UnlinkedIsSound(rows, job);
      LastStatement(rows, job);
      rows := Unlinked(rows, job);
      ghost var base := rows;
      StageZero(base, job);
      history := [rows];
      SelectsAll(base, job);
      var reports, claims, runs := IdsOfJob(rows, ReportRevision, job), IdsOfJob(rows, Claim, job), IdsOfJob(rows, ProviderRun, job);
      var documents := DocumentsOf(rows, runs);
      tombstones := tombstones[job := Tombstone(epoch, now, now + TOMBSTONE_SECONDS)];
      ghost var first := ClearReport(base, job, claims, reports);
      ghost var second := ClearCollected(base, job, runs);
      ghost var third := ClearWork(base, job, runs);
      history := history + first + second + third;
      JobRowLast(base, job);
      rows := DeleteIds(rows, SearchJob, {job}); history := history + [rows];
      DocumentsLast(base, job, documents);
      rows := DeleteUnused(rows, documents); history := history + [rows];
    }
  }

  lemma StageZero(rows: Rows, job: Id)
    requires Sound(rows)
    ensures Stage(rows, job, 0) == rows && ForeignKeysHold(rows)
  {}

  /** Every statement selects the job's rows of its table. */
  lemma SelectsAll(rows: Rows, job: Id)
    ensures forall t: Table | OwnerColumn(t) == Some(ToJob) :: Selects(rows, job, t, ToJob, {job})
    ensures Selects(rows, job, ClaimEvidence, ToClaim, IdsOfJob(rows, Claim, job))
    ensures Selects(rows, job, ReportAccess, ToReport, IdsOfJob(rows, ReportRevision, job))
    ensures Selects(rows, job, ScanRun, ToRun, IdsOfJob(rows, ProviderRun, job))
    ensures Selects(rows, job, SourceUse, ToRun, IdsOfJob(rows, ProviderRun, job))
    ensures Selects(rows, job, ProviderAttempt, ToRun, IdsOfJob(rows, ProviderRun, job))
    ensures Selects(rows, job, OutboxMessage, PayloadRun, IdsOfJob(rows, ProviderRun, job))
  {
    hide Selects, IdsOfJob;
    forall t: Table | OwnerColumn(t) == Some(ToJob)
      ensures Selects(rows, job, t, ToJob, {job})
    {
      DirectSelects(rows, job, t);
    }
    IndirectSelects(rows, job, ClaimEvidence, ToClaim);
    IndirectSelects(rows, job, ReportAccess, ToReport);
    IndirectSelects(rows, job, ScanRun, ToRun);
    IndirectSelects(rows, job, SourceUse, ToRun);
    IndirectSelects(rows, job, ProviderAttempt, ToRun);
    IndirectSelects(rows, job, OutboxMessage, PayloadRun);
  }

  lemma JobRowLast(rows: Rows, job: Id)
    requires Sound(rows) && NoRefresh(rows, job)
    ensures DeleteIds(Stage(rows, job, 20), SearchJob, {job}) == Stage(rows, job, 21)
    ensures ForeignKeysHold(Stage(rows, job, 21))
  {
    hide ForeignKeysHold, Sound, Position, Owner, NoRefresh;
    StageKeepsForeignKeys(rows, job, 21);
    JobPosition();
    forall k | k in rows && k.table.SearchJob?
      ensures Owned(rows, k, job) <==> k.id == job
    {
      JobOwnsItself(rows, k, job);
    }
  }

  lemma JobPosition()
    ensures forall t: Table :: Position(t) < 21 <==> Position(t) < 20 || t.SearchJob?
    ensures Position(SearchJob) == 20
  {}

  lemma JobOwnsItself(rows: Rows, k: Key, job: Id)
    requires k in rows && k.table.SearchJob?
    ensures Owned(rows, k, job) <==> k.id == job
  {}

  lemma DocumentsLast(rows: Rows, job: Id, documents: set<Id>)
    requires Sound(rows) && NoRefresh(rows, job)
    ensures ForeignKeysHold(DeleteUnused(Stage(rows, job, 21), documents))
  {
    StageKeepsForeignKeys(rows, job, 21);
    DocumentsKeepForeignKeys(Stage(rows, job, 21), documents);
  }

  // ---------- What remains ----------

  /** Nothing of the job remains. */
  lemma NothingRemains(rows: Rows, job: Id, k: Key)
    requires Sound(rows) && k in AfterDeletion(rows, job)
    ensures Owner(rows, k) != Some(job) && Owner(AfterDeletion(rows, job), k) != Some(job)
  {
    RemainingRows(rows, job, k);
    if k.table.OutboxMessage? {
      MessageOwner(rows, job, k);
    } else {
      OwnerStays(rows, job, k);
    }
  }

  lemma MessageOwner(rows: Rows, job: Id, k: Key)
    requires k in AfterDeletion(rows, job) && k.table.OutboxMessage?
    ensures Owner(AfterDeletion(rows, job), k).None? || Owner(AfterDeletion(rows, job), k) == Owner(rows, k)
  {
    RemainingRows(rows, job, k);
    if PayloadRun in rows[k].links {
      var parent := Key(ProviderRun, rows[k].links[PayloadRun]);
      if parent in AfterDeletion(rows, job) {
        UnlinkedLinks(rows, job, parent);
      }
    }
  }

  /** Rows of other jobs stay, unchanged but for a refresh link to the deleted job; a document
      goes exactly when the job used it and no other job does. */
  lemma OthersStay(rows: Rows, job: Id, k: Key)
    requires Sound(rows) && k in rows && !Owned(rows, k, job)
    ensures k in AfterDeletion(rows, job) <==>
            !(k.table.SourceDocument? && UsedBy(rows, k.id, job) && !UsedElsewhere(rows, k.id, job))
    ensures k in AfterDeletion(rows, job) ==>
      var after := AfterDeletion(rows, job)[k];
      && after.data == rows[k].data && after.epoch == rows[k].epoch
      && after.links == if RefreshOf in rows[k].links && rows[k].links[RefreshOf] == job
                        then rows[k].links - {RefreshOf} else rows[k].links
  {
    hide Owner, UsedBy, UsedElsewhere;
    assert RefreshOf in rows[k].links ==> k.table.SearchJob? by {
      assert rows[k].links.Keys <= Mandatory(k.table) + Nullable(k.table);
    }
  }

  /** The store that remains is as well-formed as before, so deletions can follow each other. */
  lemma RemainderIsSound(rows: Rows, job: Id)
    requires Sound(rows)
    ensures Sound(AfterDeletion(rows, job))
  {
    var unlinked := Unlinked(rows, job);
    UnlinkedIsSound(rows, job);
    LastStatement(rows, job);
    DocumentsLast(unlinked, job, DocumentsOf(unlinked, IdsOfJob(unlinked, ProviderRun, job)));
    RemainderIsTyped(rows, job);
    RemainderIsLocal(rows, job);
    hide ForeignKeysHold, Typed, JobLocal, AfterDeletion, Stage, DeleteUnused;
  }

  lemma RemainingRows(rows: Rows, job: Id, k: Key)
    requires k in AfterDeletion(rows, job)
    ensures k in rows && AfterDeletion(rows, job)[k] == Unlinked(rows, job)[k] && !Owned(rows, k, job)
  {}

  lemma RemainderIsTyped(rows: Rows, job: Id)
    requires Typed(rows)
    ensures Typed(AfterDeletion(rows, job))
  {
    var after := AfterDeletion(rows, job);
    RefreshIsNullable();
    hide Mandatory, Nullable, AfterDeletion, Unlinked, Owned;
    forall k | k in after
      ensures Mandatory(k.table) <= after[k].links.Keys <= Mandatory(k.table) + Nullable(k.table)
    {
      RemainingRows(rows, job, k);
      UnlinkedLinks(rows, job, k);
    }
  }

  lemma RemainderIsLocal(rows: Rows, job: Id)
    requires Sound(rows)
    ensures JobLocal(AfterDeletion(rows, job))
  {
    var after := AfterDeletion(rows, job);
    hide Owner, Sound, AfterDeletion, Unlinked, Owned, Target;
    forall k, c | k in after && c in after[k].links && c != PayloadRun && c != RefreshOf && c != ToDocument
        && Key(Target(c), after[k].links[c]) in after
      ensures Owner(after, k) == Owner(after, Key(Target(c), after[k].links[c]))
    {
      var target := Key(Target(c), after[k].links[c]);
      RemainingRows(rows, job, k);
      UnlinkedLinks(rows, job, k);
      LinkFacts(rows, k, c);
      MessagesHaveNoForeignKeys(k.table, c);
      OwnerStays(rows, job, k);
      OwnerStays(rows, job, target);
    }
  }

  lemma MessagesHaveNoForeignKeys(t: Table, c: Column)
    requires c in Mandatory(t) + Nullable(t) && c != PayloadRun
    ensures !t.OutboxMessage? && !Target(c).OutboxMessage?
  {}

  /** Rows keep their owner; only a message can lose the run its payload names. */
  lemma OwnerStays(rows: Rows, job: Id, k: Key)
    requires Sound(rows) && k in AfterDeletion(rows, job) && !k.table.OutboxMessage?
    ensures Owner(AfterDeletion(rows, job), k) == Owner(rows, k)
  {
    hide Sound, AfterDeletion, Unlinked, Target, Mandatory, Nullable, JobOfParent;
    RemainingRows(rows, job, k);
    UnlinkedLinks(rows, job, k);
    if !k.table.SearchJob? && OwnerColumn(k.table).Some? {
      var c := OwnerColumn(k.table).value;
      OwnerColumnIsMandatory(k.table);
      TypedRow(rows, k);
      if c != ToJob {
        LinkFacts(rows, k, c);
        ParentStays(rows, job, Key(Target(c), rows[k].links[c]));
      }
    }
  }

  lemma TypedRow(rows: Rows, k: Key)
    requires Sound(rows) && k in rows
    ensures Mandatory(k.table) <= rows[k].links.Keys
  {
    hide Mandatory, Nullable;
  }

  lemma OwnerColumnIsMandatory(t: Table)
    ensures OwnerColumn(t).Some? && !t.OutboxMessage? ==>
      OwnerColumn(t).value in Mandatory(t) && OwnerColumn(t).value != RefreshOf && OwnerColumn(t).value != ToDocument
      && OwnerColumn(t).value != PayloadRun && !Target(OwnerColumn(t).value).SourceDocument?
  {}

  lemma ParentStays(rows: Rows, job: Id, parent: Key)
    requires Sound(rows) && parent in rows && !Owned(rows, parent, job) && !parent.table.SourceDocument?
    ensures JobOfParent(AfterDeletion(rows, job), parent) == JobOfParent(rows, parent)
  {
    UnlinkedLinks(rows, job, parent);
    hide Sound, Owner;
  }
}
