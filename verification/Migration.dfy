/**
 The source index migration (tools/proof_plane/corpus_artifacts.py,
 `migrate_tier1_source_artifact_index`): three durable documents, published and
 replaced one at a time, by a process that may die between any two of them.

 Files are canonical, so a document and its bytes determine each other.
 */
module Migration {
  import opened Wrappers
  import opened Ordering

  const ARTIFACT_COUNT := 18

  datatype Format = Canonical | Historical | Unsupported(name: string)

  datatype Row = Row(
    taskId: string, family: string, taskKind: string, sourceCommit: string,
    archivePath: string, archive: Sha<string>, content: string, format: Format, fileCount: int, totalBytes: int)

  datatype IndexBody = IndexBody(study: string, count: int, artifacts: seq<Row>)

  datatype SelfDigest = SelfDigest(of: IndexBody)

  datatype Index = Index(body: IndexBody, self: SelfDigest)

  datatype Project = Project(family: string, taskKind: string, path: string)

  /** What reproducing a project from Git yields. */
  datatype Proof = Proof(archive: string, content: string, fileCount: int, totalBytes: int, treeOid: string,
      inventory: string, blobs: int)

  datatype Archive = Archive(bytes: string, content: string, fileCount: int, totalBytes: int)

  /** The reviewed source of a historical replay. */
  datatype Upstream = Upstream(commit: string, archive: Sha<string>)

  /** The frozen surroundings: the task slots, the Tier-1 projects, the archives and the Git objects. */
  datatype Corpus = Corpus(
    slots: map<string, (string, string)>, upstream: map<string, Upstream>, tier1: map<string, Project>,
    archives: map<string, Archive>, proofs: map<string, Proof>)
  {
    predicate Valid() {
      && |tier1| == 12
      && (forall t | t in tier1 :: t in slots && slots[t] == (tier1[t].family, tier1[t].taskKind))
      && (forall t | t in tier1 :: t !in upstream && t in proofs)
    }
  }

  datatype ReceiptTask = ReceiptTask(
    taskId: string, family: string, taskKind: string, projectPath: string, previousCommit: string, sourceCommit: string,
    treeOid: string, inventory: string, blobs: int, archive: Sha<string>, content: string)

  datatype ReceiptBody = ReceiptBody(
    study: string, target: string, beforeRaw: Sha<Index>, beforeSelf: SelfDigest,
    afterRaw: Sha<Index>, afterSelf: SelfDigest, tasks: seq<ReceiptTask>)

  datatype ReceiptDigest = ReceiptDigest(of: ReceiptBody)

  datatype Receipt = Receipt(body: ReceiptBody, self: ReceiptDigest)

  datatype Request = Request(target: string, previous: map<string, string>, beforeRaw: Sha<Index>,
      beforeSelf: SelfDigest)

  datatype Fault = Died | Refused

  // --------------------------------------------------------------- validation

  function TaskOf(r: Row): string { r.taskId }
  function ReceiptTaskOf(t: ReceiptTask): string { t.taskId }

  predicate RowAccepted(c: Corpus, r: Row) {
    && r.taskId in c.slots && c.slots[r.taskId] == (r.family, r.taskKind)
    && (if r.taskId in c.upstream
        then r.format == Historical && c.upstream[r.taskId] == Upstream(r.sourceCommit, r.archive)
        else r.format == Canonical)
    && r.fileCount >= 1 && r.totalBytes >= 0
    && r.archivePath in c.archives
    && var a := c.archives[r.archivePath];
       r.archive == Sha(a.bytes) && r.content == a.content && r.fileCount == a.fileCount && r.totalBytes == a.totalBytes
  }

  ghost predicate IndexAccepted(c: Corpus, x: Index) {
    && x.self == SelfDigest(x.body) && x.body.count == ARTIFACT_COUNT
    && (forall r | r in x.body.artifacts :: RowAccepted(c, r))
    && Distinct(x.body.artifacts, TaskOf)
    && OrderedBy(x.body.artifacts, TaskOf)
    && (forall t :: t in c.slots <==> HasTask(x.body.artifacts, t))
  }

  ghost predicate HasTask(rows: seq<Row>, t: string) { exists r :: r in rows && r.taskId == t }

  /** The commits of the Tier-1 rows, by task. */
  function Tier1Commits(c: Corpus, rows: seq<Row>): map<string, string>
    decreases |rows|
  {
    if rows == [] then map[]
    else
      var last := rows[|rows| - 1];
      var front := Tier1Commits(c, rows[..|rows| - 1]);
      if last.taskId in c.tier1 then front[last.taskId := last.sourceCommit] else front
  }

  predicate AllAre(commits: map<string, string>, target: string) {
    forall t | t in commits :: commits[t] == target
  }

  // -------------------------------------------------------------- replacement

  function Rebound(c: Corpus, target: string, r: Row): Row {
    if r.taskId in c.tier1 then r.(sourceCommit := target) else r
  }

  function ReboundRows(c: Corpus, target: string, rows: seq<Row>): (after: seq<Row>)
    ensures |after| == |rows| && forall i | 0 <= i < |rows| :: after[i] == Rebound(c, target, rows[i])
  {
    if rows == [] then [] else [Rebound(c, target, rows[0])] + ReboundRows(c, target, rows[1..])
  }

  function After(c: Corpus, target: string, before: Index): Index {
    var body := before.body.(artifacts := ReboundRows(c, target, before.body.artifacts));
    Index(body, SelfDigest(body))
  }

  function ReceiptTaskFor(c: Corpus, target: string, r: Row): ReceiptTask
    requires r.taskId in c.tier1 && r.taskId in c.proofs
  {
    var (project, proof) := (c.tier1[r.taskId], c.proofs[r.taskId]);
    ReceiptTask(r.taskId, project.family, project.taskKind, project.path, r.sourceCommit, target,
                proof.treeOid, proof.inventory, proof.blobs, r.archive, r.content)
  }

  function ReceiptTasks(c: Corpus, target: string, rows: seq<Row>): seq<ReceiptTask>
    requires c.Valid()
    decreases |rows|
  {
    if rows == [] then []
    else
      var last := rows[|rows| - 1];
      ReceiptTasks(c, target, rows[..|rows| - 1])
      + if last.taskId in c.tier1 then [ReceiptTaskFor(c, target, last)] else []
  }

  function ReceiptFor(c: Corpus, target: string, before: Index): Receipt
    requires c.Valid()
  {
    var after := After(c, target, before);
    var body := ReceiptBody(before.body.study, target, Sha(before), before.self, Sha(after), after.self,
                            SortBy(ReceiptTasks(c, target, before.body.artifacts), ReceiptTaskOf));
    Receipt(body, ReceiptDigest(body))
  }

  /** The row is the one to migrate, and its archive is exactly the Git reproduction. */
  predicate Reproduces(c: Corpus, q: Request, r: Row)
    requires c.Valid() && r.taskId in c.tier1
  {
    var (project, proof) := (c.tier1[r.taskId], c.proofs[r.taskId]);
    && r.family == project.family && r.taskKind == project.taskKind
    && r.taskId in q.previous && r.sourceCommit == q.previous[r.taskId]
    && r.archivePath in c.archives && c.archives[r.archivePath].bytes == proof.archive
    && r.archive == Sha(proof.archive) && r.content == proof.content
    && r.fileCount == proof.fileCount && r.totalBytes == proof.totalBytes
  }

  ghost predicate AllReproduce(c: Corpus, q: Request, before: Index)
    requires c.Valid()
  {
    forall r | r in before.body.artifacts && r.taskId in c.tier1 :: Reproduces(c, q, r)
  }

  predicate Bound(c: Corpus, q: Request, before: Index) {
    && Tier1Commits(c, before.body.artifacts) == q.previous
    && Sha(before) == q.beforeRaw && before.self == q.beforeSelf
  }

  predicate RequestAccepted(c: Corpus, q: Request) {
    && q.previous.Keys == c.tier1.Keys
    && (forall t | t in q.previous :: q.previous[t] != q.target)
    && |q.previous.Values| == |q.previous|
  }

  // ------------------------------------------------- what the replacement keeps

  /** Only the Tier-1 rows' commits and the self digest differ. */
  lemma OnlyTier1CommitsChange(c: Corpus, target: string, before: Index, i: nat)
    requires i < |before.body.artifacts|
    ensures var (old_, new_) := (before.body.artifacts[i], After(c, target, before).body.artifacts[i]);
      && new_.(sourceCommit := old_.sourceCommit) == old_
      && (old_.taskId !in c.tier1 ==> new_ == old_)
      && (old_.taskId in c.tier1 ==> new_.sourceCommit == target)
    ensures After(c, target, before).body.(artifacts := before.body.artifacts) == before.body
  {
  }

  lemma {:induction false} CommitsKeys(c: Corpus, rows: seq<Row>)
    ensures forall t :: t in Tier1Commits(c, rows) <==> t in c.tier1 && HasTask(rows, t)
    decreases |rows|
  {
    if rows != [] {
      var front, last := rows[..|rows| - 1], rows[|rows| - 1];
      assert rows == front + [last];
      CommitsKeys(c, front);
      forall t
        ensures HasTask(rows, t) <==> HasTask(front, t) || last.taskId == t
      {
        if HasTask(front, t) {
          var r :| r in front && r.taskId == t;
          assert r in rows;
        }
        assert last in rows;
      }
    }
  }

  lemma {:induction false} ReboundCommits(c: Corpus, target: string, rows: seq<Row>)
    ensures AllAre(Tier1Commits(c, ReboundRows(c, target, rows)), target)
    decreases |rows|
  {
    if rows != [] {
      var after := ReboundRows(c, target, rows);
      assert after[..|rows| - 1] == ReboundRows(c, target, rows[..|rows| - 1]);
      ReboundCommits(c, target, rows[..|rows| - 1]);
    }
  }

  lemma ReboundTasks(c: Corpus, target: string, rows: seq<Row>)
    ensures forall t :: HasTask(ReboundRows(c, target, rows), t) <==> HasTask(rows, t)
  {
    var after := ReboundRows(c, target, rows);
    forall t
      ensures HasTask(after, t) <==> HasTask(rows, t)
    {
      if HasTask(rows, t) {
        var i :| 0 <= i < |rows| && rows[i].taskId == t;
        assert after[i] in after;
      }
      if HasTask(after, t) {
        var i :| 0 <= i < |after| && after[i].taskId == t;
        assert rows[i] in rows;
      }
    }
  }

  /** The replacement of an accepted index is accepted, and reads as migrated, never as unmigrated. */
  lemma AfterIsAccepted(c: Corpus, q: Request, before: Index)
    requires c.Valid() && RequestAccepted(c, q) && IndexAccepted(c, before)
    ensures IndexAccepted(c, After(c, q.target, before))
    ensures var commits := Tier1Commits(c, After(c, q.target, before).body.artifacts);
      commits.Keys == c.tier1.Keys && AllAre(commits, q.target) && commits != q.previous
  {
    hide RowAccepted, Tier1Commits, Distinct, OrderedBy, HasTask, ReboundRows;
    var rows := before.body.artifacts;
    var after := ReboundRows(c, q.target, rows);
    ReboundTasks(c, q.target, rows);
    ReboundKeys(c, q.target, rows);
    RowsStayAccepted(c, q.target, rows);
    assert IndexAccepted(c, After(c, q.target, before));
    AfterCommits(c, q, after, rows);
  }

  lemma AfterCommits(c: Corpus, q: Request, after: seq<Row>, rows: seq<Row>)
    requires c.Valid() && RequestAccepted(c, q) && after == ReboundRows(c, q.target, rows)
    requires forall t :: t in c.slots <==> HasTask(after, t)
    ensures var commits := Tier1Commits(c, after);
      commits.Keys == c.tier1.Keys && AllAre(commits, q.target) && commits != q.previous
  {
    hide RowAccepted, Tier1Commits, HasTask, ReboundRows;
    ReboundCommits(c, q.target, rows);
    CommitsKeys(c, after);
    SlotsFilled(c, after);
    AnyTier1(c, q, Tier1Commits(c, after));
  }

  lemma ReboundKeys(c: Corpus, target: string, rows: seq<Row>)
    ensures Distinct(rows, TaskOf) ==> Distinct(ReboundRows(c, target, rows), TaskOf)
    ensures OrderedBy(rows, TaskOf) ==> OrderedBy(ReboundRows(c, target, rows), TaskOf)
  {
    hide AtMost, ReboundRows;
    var after := ReboundRows(c, target, rows);
    assert forall i | 0 <= i < |rows| :: TaskOf(after[i]) == TaskOf(rows[i]);
  }

  lemma RowsStayAccepted(c: Corpus, target: string, rows: seq<Row>)
    requires c.Valid() && forall r | r in rows :: RowAccepted(c, r)
    ensures forall r | r in ReboundRows(c, target, rows) :: RowAccepted(c, r)
  {
    var after := ReboundRows(c, target, rows);
    forall r | r in after
      ensures RowAccepted(c, r)
    {
      var i :| 0 <= i < |after| && after[i] == r;
      assert rows[i] in rows;
    }
  }

  lemma SlotsFilled(c: Corpus, rows: seq<Row>)
    requires c.Valid() && forall t :: t in c.slots <==> HasTask(rows, t)
    ensures forall t | t in c.tier1 :: HasTask(rows, t)
  {
  }

  lemma AnyTier1(c: Corpus, q: Request, commits: map<string, string>)
    requires c.Valid() && RequestAccepted(c, q)
    requires (forall t | t in c.tier1 :: t in commits) && AllAre(commits, q.target)
    ensures commits != q.previous
  {
    assert c.tier1.Keys != {};
    var t :| t in c.tier1.Keys;
    assert commits[t] != q.previous[t];
  }

  lemma {:induction false} ReceiptTaskCount(c: Corpus, target: string, rows: seq<Row>)
    requires c.Valid() && Distinct(rows, TaskOf)
    ensures |ReceiptTasks(c, target, rows)| == |Tier1Commits(c, rows)|
    decreases |rows|
  {
    if rows != [] {
      var front, last := rows[..|rows| - 1], rows[|rows| - 1];
      ReceiptTaskCount(c, target, front);
      CommitsKeys(c, front);
      assert forall i | 0 <= i < |front| :: TaskOf(rows[i]) != TaskOf(last) && front[i] == rows[i];
    }
  }

  // ------------------------------------------------------------ what a receipt says

  /** One task of a receipt, against the index before the migration and the Git objects. */
  ghost predicate TaskTells(c: Corpus, q: Request, before: Index, t: ReceiptTask) {
    && t.taskId in c.tier1 && t.taskId in c.proofs && t.taskId in q.previous
    && t.previousCommit == q.previous[t.taskId] && t.sourceCommit == q.target
    && c.tier1[t.taskId] == Project(t.family, t.taskKind, t.projectPath)
    && var proof := c.proofs[t.taskId];
       && t.treeOid == proof.treeOid && t.inventory == proof.inventory && t.blobs == proof.blobs
       && t.archive == Sha(proof.archive) && t.content == proof.content
       && exists r :: r in before.body.artifacts && r.taskId == t.taskId
                      && r.archive == t.archive && r.content == t.content && r.sourceCommit == t.previousCommit
  }

  /** The receipt is about exactly these two indexes and all Tier-1 tasks, in order. */
  ghost predicate ReceiptTells(c: Corpus, q: Request, before: Index, after: Index, receipt: Receipt) {
    var b := receipt.body;
    && receipt.self == ReceiptDigest(b)
    && b.study == before.body.study && b.target == q.target
    && b.beforeRaw == Sha(before) && b.beforeSelf == SelfDigest(before.body)
    && b.afterRaw == Sha(after) && b.afterSelf == SelfDigest(after.body)
    && OrderedBy(b.tasks, ReceiptTaskOf) && |b.tasks| == 12
    && (forall t | t in b.tasks :: TaskTells(c, q, before, t))
    && (forall id | id in c.tier1 :: exists t :: t in b.tasks && t.taskId == id)
  }

  /** The index on disk is the old one with the Tier-1 commits rewritten, and nothing else. */
  ghost predicate Rewritten(c: Corpus, target: string, before: Index, after: Index) {
    && after.self == SelfDigest(after.body)
    && after.body.study == before.body.study && after.body.count == before.body.count
    && |after.body.artifacts| == |before.body.artifacts|
    && forall i | 0 <= i < |before.body.artifacts| ::
         var (old_, new_) := (before.body.artifacts[i], after.body.artifacts[i]);
         new_ == if old_.taskId in c.tier1 then old_.(sourceCommit := target) else old_
  }

  /** A row of the index is about its slot's task and the archive it names; a historical
      one is the reviewed source, and a Tier-1 one is what Git reproduces. */
  predicate Backed(c: Corpus, r: Row) {
    && r.taskId in c.slots && c.slots[r.taskId] == (r.family, r.taskKind)
    && r.archivePath in c.archives && r.archive == Sha(c.archives[r.archivePath].bytes)
    && c.archives[r.archivePath]
       == Archive(c.archives[r.archivePath].bytes, r.content, r.fileCount, r.totalBytes)
    && (if r.taskId in c.upstream then r.format == Historical && c.upstream[r.taskId] == Upstream(r.sourceCommit,
          r.archive)
        else r.format == Canonical)
    && (r.taskId in c.tier1 && r.taskId in c.proofs ==>
          var proof := c.proofs[r.taskId];
          c.archives[r.archivePath] == Archive(proof.archive, proof.content, proof.fileCount, proof.totalBytes))
  }

  /** Every row of a migrated index is backed, and every slot has one. */
  ghost predicate IndexBacked(c: Corpus, x: Index) {
    && (forall r | r in x.body.artifacts :: Backed(c, r))
    && (forall t | t in c.slots :: HasTask(x.body.artifacts, t))
  }

  lemma MigratedIndexIsBacked(c: Corpus, q: Request, before: Index)
    requires c.Valid() && RequestAccepted(c, q) && IndexAccepted(c, before) && AllReproduce(c, q, before)
    ensures IndexBacked(c, After(c, q.target, before))
  {
    hide Distinct, OrderedBy, HasTask, Backed, RowAccepted, Reproduces;
    AfterIsAccepted(c, q, before);
    var rows, after := before.body.artifacts, After(c, q.target, before).body.artifacts;
    forall r | r in after
      ensures Backed(c, r)
    {
      var i :| 0 <= i < |after| && after[i] == r;
      assert rows[i] in rows && rows[i].taskId == r.taskId;
      RowIsBacked(c, q, rows[i], r);
    }
  }

  lemma RowIsBacked(c: Corpus, q: Request, before: Row, r: Row)
    requires c.Valid() && RowAccepted(c, r) && r == before.(sourceCommit := r.sourceCommit)
    requires r.taskId in c.tier1 ==> Reproduces(c, q, before)
    ensures Backed(c, r)
  {
  }

  lemma AfterIsRewritten(c: Corpus, target: string, before: Index)
    ensures Rewritten(c, target, before, After(c, target, before))
  {
  }

  /** The receipt of a migratable index tells the truth about it. */
  lemma ReceiptIsTrue(c: Corpus, q: Request, before: Index)
    requires c.Valid() && RequestAccepted(c, q) && IndexAccepted(c, before) && Bound(c, q, before)
    requires AllReproduce(c, q, before)
    ensures ReceiptTells(c, q, before, After(c, q.target, before), ReceiptFor(c, q.target, before))
  {
    hide RowAccepted, Reproduces, TaskTells, AtMost, ReboundRows, OrderedBy, Tier1Commits, ReceiptTaskFor;
    var rows := before.body.artifacts;
    var tasks := ReceiptTasks(c, q.target, rows);
    var sorted := SortBy(tasks, ReceiptTaskOf);
    SortOrders(tasks, ReceiptTaskOf);
    SameMembers(sorted, tasks);
    TasksTell(c, q, before, rows);
    TwelveTasks(c, q, before);
    forall id | id in c.tier1
      ensures exists t :: t in sorted && t.taskId == id
    {
      assert HasTask(rows, id);
      TaskOfRow(c, q.target, rows, id);
      var t :| t in tasks && t.taskId == id;
      assert t in sorted;
    }
  }

  lemma TwelveTasks(c: Corpus, q: Request, before: Index)
    requires c.Valid() && RequestAccepted(c, q) && IndexAccepted(c, before) && Bound(c, q, before)
    ensures |ReceiptTasks(c, q.target, before.body.artifacts)| == 12
  {
    hide RowAccepted, OrderedBy, Tier1Commits;
    ReceiptTaskCount(c, q.target, before.body.artifacts);
    assert |q.previous| == |q.previous.Keys| && |c.tier1| == |c.tier1.Keys|;
  }

  lemma {:induction false} TaskOfRow(c: Corpus, target: string, rows: seq<Row>, id: string)
    requires c.Valid() && HasTask(rows, id) && id in c.tier1
    ensures exists t :: t in ReceiptTasks(c, target, rows) && t.taskId == id
    decreases |rows|
  {
    var front, last := rows[..|rows| - 1], rows[|rows| - 1];
    assert rows == front + [last];
    if last.taskId == id {
      assert ReceiptTaskFor(c, target, last) in ReceiptTasks(c, target, rows);
    } else {
      TaskOfRow(c, target, front, id);
      var t :| t in ReceiptTasks(c, target, front) && t.taskId == id;
      assert t in ReceiptTasks(c, target, rows);
    }
  }

  lemma {:induction false} TasksTell(c: Corpus, q: Request, before: Index, rows: seq<Row>)
    requires c.Valid() && RequestAccepted(c, q) && AllReproduce(c, q, before)
    requires forall r | r in rows :: r in before.body.artifacts
    ensures forall t | t in ReceiptTasks(c, q.target, rows) :: TaskTells(c, q, before, t)
    decreases |rows|
  {
    hide Reproduces, TaskTells, ReceiptTaskFor;
    if rows != [] {
      var front, last := rows[..|rows| - 1], rows[|rows| - 1];
      assert rows == front + [last];
      TasksTell(c, q, before, front);
      if last.taskId in c.tier1 { RowTells(c, q, before, last); }
    }
  }

  lemma RowTells(c: Corpus, q: Request, before: Index, r: Row)
    requires c.Valid() && RequestAccepted(c, q) && r in before.body.artifacts && r.taskId in c.tier1
    requires Reproduces(c, q, r)
    ensures TaskTells(c, q, before, ReceiptTaskFor(c, q.target, r))
  {
  }
}
