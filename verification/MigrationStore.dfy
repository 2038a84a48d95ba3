/** The migration procedure over its durable documents, and its recovery from any crash. */
module MigrationStore {
  import opened Wrappers
  import opened Ordering
  import opened Migration

  /** The replacement and receipt a build produces. */
  datatype Built = Built(after: Index, receipt: Receipt)

  class SourceIndexStore {
    const c: Corpus
    var index: Index
    var backup: Option<Index>
    var receipt: Option<Receipt>
    var fuse: nat   // durable steps left before this process dies

    constructor (c: Corpus, index: Index, backup: Option<Index>, receipt: Option<Receipt>, fuse: nat)
      ensures this.c == c && this.index == index && this.backup == backup && this.receipt == receipt
      ensures this.fuse == fuse
    {
      this.c := c;
      this.index, this.backup, this.receipt, this.fuse := index, backup, receipt, fuse;
    }

    /** A new process takes over. */
    method Restart(steps: nat)
      modifies this`fuse
      ensures fuse == steps
    {
      fuse := steps;
    }

    // ------------------------------------------------------------- the phases

    /** `before` is the index this request is about, and it can be migrated. */
    ghost predicate Migratable(q: Request, before: Index)
      requires c.Valid()
    {
      RequestAccepted(c, q) && IndexAccepted(c, before) && Bound(c, q, before) && AllReproduce(c, q, before)
    }

    /** 0: untouched; 1: backed up; 2: replaced; 3: receipted. */
    ghost predicate AtPhase(q: Request, before: Index, phase: nat)
      requires c.Valid()
      reads this
    {
      && phase <= 3
      && backup == (if phase == 0 then None else Some(before))
      && index == (if phase < 2 then before else After(c, q.target, before))
      && receipt == (if phase < 3 then None else Some(ReceiptFor(c, q.target, before)))
    }

    ghost predicate OnTrack(q: Request, before: Index)
      requires c.Valid()
      reads this
    {
      Migratable(q, before) && Underway(q, before)
    }

    ghost predicate Underway(q: Request, before: Index)
      requires c.Valid()
      reads this
    {
      AtPhase(q, before, 0) || AtPhase(q, before, 1) || AtPhase(q, before, 2) || AtPhase(q, before, 3)
    }

    /** On the way, a receipt comes with the replaced index, and that with the backup. */
    lemma DocumentsAreOrdered(q: Request, before: Index)
      requires c.Valid() && OnTrack(q, before)
      ensures receipt.Some? ==> index == After(c, q.target, before) && backup == Some(before)
      ensures index == After(c, q.target, before) ==> backup == Some(before)
      ensures index == before || index == After(c, q.target, before)
      ensures before != After(c, q.target, before)
    {
      AfterIsAccepted(c, q, before);
    }

    // ---------------------------------------------------------- durable steps

    method PublishBackup(x: Index) returns (o: Result<(), Fault>)
      requires backup.None?
      modifies this`backup, this`fuse
      ensures o.Success? ==> backup == Some(x) && old(fuse) > 0 && fuse == old(fuse) - 1
      ensures o.Failure? ==> o.error == Died && backup.None? && old(fuse) == 0 && fuse == 0
    {
      if fuse == 0 { return Failure(Died); }
      fuse := fuse - 1;
      backup := Some(x);
      return Success(());
    }

    /** Replace the index, but only while it is still the one that was read. */
    method ReplaceIndex(before: Index, after: Index) returns (o: Result<(), Fault>)
      modifies this`index, this`fuse
      ensures o.Success? ==> old(index) == before && index == after && old(fuse) > 0 && fuse == old(fuse) - 1
      ensures o.Failure? ==> index == old(index)
      ensures o.Failure? ==> (o.error == Died && old(fuse) == 0 == fuse) || (o.error == Refused && old(index) != before)
    {
      if index != before { return Failure(Refused); }
      if fuse == 0 { return Failure(Died); }
      fuse := fuse - 1;
      index := after;
      return Success(());
    }

    method PublishReceipt(x: Receipt) returns (o: Result<(), Fault>)
      requires receipt.None?
      modifies this`receipt, this`fuse
      ensures o.Success? ==> receipt == Some(x) && old(fuse) > 0 && fuse == old(fuse) - 1
      ensures o.Failure? ==> o.error == Died && receipt.None? && old(fuse) == 0 && fuse == 0
    {
      if fuse == 0 { return Failure(Died); }
      fuse := fuse - 1;
      receipt := Some(x);
      return Success(());
    }

    // ------------------------------------------------------------- validation

    method CheckIndex(x: Index) returns (ok: bool)
      ensures ok <==> IndexAccepted(c, x)
    {
      hide RowAccepted, OrderedBy, Distinct, SortBy;
      var rows := x.body.artifacts;
      for i := 0 to |rows|
        invariant forall k | 0 <= k < i :: RowAccepted(c, rows[k])
      {
        if !RowAccepted(c, rows[i]) { return false; }
      }
      var distinct := AllDistinct(rows, TaskOf);
      if !distinct { return false; }
      var ordered := InOrder(rows);
      if !ordered { return false; }
      var tasks := set r | r in rows :: r.taskId;
      TasksAre(rows, tasks);
      if tasks != c.slots.Keys { return false; }
      return x.self == SelfDigest(x.body) && x.body.count == ARTIFACT_COUNT;
    }

    lemma TasksAre(rows: seq<Row>, tasks: set<string>)
      requires tasks == set r | r in rows :: r.taskId
      ensures tasks == c.slots.Keys <==> forall t :: t in c.slots <==> HasTask(rows, t)
    {
      assert forall t :: t in tasks <==> HasTask(rows, t);
    }

    method InOrder(rows: seq<Row>) returns (ok: bool)
      ensures ok <==> OrderedBy(rows, TaskOf)
    {
      if rows == [] { return true; }
      for i := 1 to |rows|
        invariant OrderedBy(rows[..i], TaskOf)
      {
        if !AtMost(TaskOf(rows[i - 1]), TaskOf(rows[i])) { return false; }
        forall k | 0 <= k < i
          ensures AtMost(TaskOf(rows[k]), TaskOf(rows[i]))
        {
          if k < i - 1 {
            assert AtMost(TaskOf(rows[..i][k]), TaskOf(rows[..i][i - 1]));
            AtMostTransitive(TaskOf(rows[k]), TaskOf(rows[i - 1]), TaskOf(rows[i]));
          }
        }
      }
      assert rows[..|rows|] == rows;
      return true;
    }

    // ----------------------------------------------------------------- building

    /** Edit a copy of the rows, proving each Tier-1 one from Git, and collect the receipt's tasks. */
    method EditRows(q: Request, before: Index) returns (r: Option<(seq<Row>, seq<ReceiptTask>)>)
      requires c.Valid()
      ensures r.Some? <==> AllReproduce(c, q, before)
      ensures r.Some? ==>
        r.value == (ReboundRows(c, q.target, before.body.artifacts), ReceiptTasks(c, q.target, before.body.artifacts))
    {
      hide Reproduces, ReceiptTaskFor;
      var rows := before.body.artifacts;
      var after, tasks := rows, [];
      for i := 0 to |rows|
        invariant |after| == |rows|
        invariant forall k | 0 <= k < i :: after[k] == Rebound(c, q.target, rows[k])
        invariant forall k | i <= k < |rows| :: after[k] == rows[k]
        invariant forall k | 0 <= k < i && rows[k].taskId in c.tier1 :: Reproduces(c, q, rows[k])
        invariant tasks == ReceiptTasks(c, q.target, rows[..i])
      {
        assert rows[..i + 1][..i] == rows[..i];
        if after[i].taskId in c.tier1 {
          if !Reproduces(c, q, after[i]) {
            assert rows[i] in rows;
            return None;
          }
          tasks := tasks + [ReceiptTaskFor(c, q.target, after[i])];
          after := after[i := after[i].(sourceCommit := q.target)];
        }
      }
      assert rows[..|rows|] == rows;
      assert after == ReboundRows(c, q.target, rows);
      return Some((after, tasks));
    }

    method Build(q: Request, before: Index) returns (r: Option<Built>)
      requires c.Valid() && RequestAccepted(c, q) && IndexAccepted(c, before) && Bound(c, q, before)
      ensures r.Some? <==> AllReproduce(c, q, before)
      ensures r.Some? ==> r.value == Built(After(c, q.target, before), ReceiptFor(c, q.target, before))
    {
      hide AllReproduce, SortBy, ReceiptTasks, ReboundRows, RowAccepted, OrderedBy;
      var edited := EditRows(q, before);
      if edited.None? { return None; }
      var (rows, tasks) := edited.value;
      ReceiptTaskCount(c, q.target, before.body.artifacts);
      assert q.previous.Keys == c.tier1.Keys && |q.previous| == |q.previous.Keys| && |c.tier1| == |c.tier1.Keys|;
      var sorted := SortBy(tasks, ReceiptTaskOf);
      if |sorted| != 12 { return None; }
      var body := before.body.(artifacts := rows);
      var after := Index(body, SelfDigest(body));
      AfterIsAccepted(c, q, before);
      var valid := CheckIndex(after);
      if !valid { return None; }
      var receiptBody := ReceiptBody(before.body.study, q.target, Sha(before), before.self, Sha(after), after.self,
          sorted);
      return Some(Built(after, Receipt(receiptBody, ReceiptDigest(receiptBody))));
    }

    // ---------------------------------------------------------------- migrating

    /**
     One invocation.  It never replaces a backup or a receipt, and replaces the
     index only by the migration of its own backup.  It succeeds only when all
     three documents are exactly those of the caller's pre-migration index; on a
     store any crash of an earlier invocation left, it gets there given three steps.
     */
    method Migrate(q: Request, ghost before: Index) returns (r: Result<Receipt, Fault>)
      requires c.Valid()
      modifies this
      ensures old(backup).Some? ==> backup == old(backup)
      ensures old(receipt).Some? ==> receipt == old(receipt)
      ensures index != old(index) ==> backup == Some(old(index)) && index == After(c, q.target, old(index))
      ensures r.Success? ==>
        backup.Some? && Migratable(q, backup.value) && AtPhase(q, backup.value, 3) && receipt == Some(r.value)
      ensures r.Success? ==>
        && Rewritten(c, q.target, backup.value, index) && ReceiptTells(c, q, backup.value, index, r.value)
        && IndexBacked(c, index) && Sha(backup.value) == q.beforeRaw && backup.value.self == q.beforeSelf
      ensures old(OnTrack(q, before)) ==> OnTrack(q, before) && r != Failure(Refused)
      ensures old(OnTrack(q, before)) && r.Success? ==> AtPhase(q, before, 3)
      ensures old(OnTrack(q, before)) && old(fuse) >= 3 ==> r.Success?
      ensures r == Failure(Died) ==> fuse == 0 && old(fuse) < 3
    {
      hide IndexAccepted, After, ReceiptFor, Tier1Commits, AllReproduce, RequestAccepted, Rewritten, ReceiptTells,
          IndexBacked;
      var start := Choose(q, before);
      if start.None? { return Failure(Refused); }
      var built := Build(q, start.value);
      if built.None? { return Failure(Refused); }
      AfterIsRewritten(c, q.target, start.value);
      MigratedIndexIsBacked(c, q, start.value);
      ReceiptIsTrue(c, q, start.value);
      r := Proceed(q, start.value, built.value);
    }

    /** Read the state and pick the pre-migration index: the backup, or the index itself. */
    method Choose(q: Request, ghost before: Index) returns (r: Option<Index>)
      requires c.Valid()
      ensures r.Some? ==>
        && RequestAccepted(c, q) && IndexAccepted(c, r.value) && Bound(c, q, r.value)
        && (if backup.Some? then r == backup else r == Some(index) && receipt.None?)
        && IndexAccepted(c, index)
        && (Tier1Commits(c, index.body.artifacts) == q.previous || Replaced(q))
        && (receipt.Some? ==> Replaced(q))
      ensures OnTrack(q, before) ==> r == Some(before)
    {
      hide RowAccepted, OrderedBy, Distinct;
      if OnTrack(q, before) { AfterIsAccepted(c, q, before); }
      if !RequestAccepted(c, q) { return None; }
      var valid := CheckIndex(index);
      if !valid { return None; }
      var commits := Tier1Commits(c, index.body.artifacts);
      var isBefore := commits == q.previous;
      var isAfter := commits.Keys == q.previous.Keys && AllAre(commits, q.target);
      if !isBefore && !isAfter { return None; }
      if receipt.Some? && !isAfter { return None; }
      if isAfter && backup.None? { return None; }
      var start := if backup.Some? then backup.value else index;
      if backup.Some? {
        var kept := CheckIndex(start);
        if !kept { return None; }
      }
      if !Bound(c, q, start) { return None; }
      return Some(start);
    }

    lemma PreviousIsNotTarget(q: Request)
      requires c.Valid() && RequestAccepted(c, q)
      ensures !AllAre(q.previous, q.target)
    {
      assert c.tier1.Keys != {};
      var t :| t in c.tier1.Keys;
      assert q.previous[t] != q.target;
    }

    /** The current index reads as already migrated. */
    ghost predicate Replaced(q: Request)
      reads this
    {
      var commits := Tier1Commits(c, index.body.artifacts);
      commits.Keys == q.previous.Keys && AllAre(commits, q.target)
    }

    method Proceed(q: Request, start: Index, built: Built) returns (r: Result<Receipt, Fault>)
      requires c.Valid() && Migratable(q, start)
      requires built == Built(After(c, q.target, start), ReceiptFor(c, q.target, start))
      requires if backup.Some? then backup == Some(start) else index == start && receipt.None?
      modifies this
      ensures backup.Some? || backup == old(backup)
      ensures old(backup).Some? ==> backup == old(backup)
      ensures old(receipt).Some? ==> receipt == old(receipt)
      ensures index != old(index) ==> backup == Some(old(index)) && index == After(c, q.target, old(index))
      ensures r.Success? ==> AtPhase(q, start, 3) && receipt == Some(r.value)
      ensures old(Underway(q, start)) ==>
        Underway(q, start) && r != Failure(Refused) && (old(fuse) >= 3 ==> r.Success?)
      ensures r == Failure(Died) ==> fuse == 0 && old(fuse) < 3
    {
      hide IndexAccepted, After, ReceiptFor, Tier1Commits, AllReproduce;
      AfterIsAccepted(c, q, start);
      PreviousIsNotTarget(q);
      var commits := Tier1Commits(c, index.body.artifacts);
      var isAfter := commits.Keys == q.previous.Keys && AllAre(commits, q.target);
      if isAfter && index != built.after { return Failure(Refused); }
      if backup.None? {
        var saved := PublishBackup(start);
        if saved.Failure? { return Failure(saved.error); }
        assert old(Underway(q, start)) ==> AtPhase(q, start, 1);
      }
      if !isAfter {
        var replaced := ReplaceIndex(start, built.after);
        if replaced.Failure? { return Failure(replaced.error); }
        assert old(Underway(q, start)) ==> AtPhase(q, start, 2);
      }
      if index != built.after { return Failure(Refused); }
      if receipt.Some? {
        if receipt.value != built.receipt { return Failure(Refused); }
      } else {
        var published := PublishReceipt(built.receipt);
        if published.Failure? { return Failure(published.error); }
      }
      if index != built.after || backup != Some(start) || receipt != Some(built.receipt) { return Failure(Refused); }
      assert AtPhase(q, start, 3);
      return Success(built.receipt);
    }
  }
}
