/** What the document store promises, proved about its specification:
    retention, backup before overwrite, the same-second collision, restore
    and the export/import round trip. */
module StorageProperties {
  import opened Wrappers
  import opened Strings
  import opened Json
  import opened StorageSpec

  // ----------------------------------------------------------------- pruning

  /** Every non-empty set of backups has an oldest member. */
  lemma {:induction false} OldestExists(s: set<string>, backups: map<string, Backup>)
    requires s != {} && s <= backups.Keys
    ensures exists x :: x in s && forall y :: y in s ==> backups[x].mtime <= backups[y].mtime
    decreases s
  {
    var x :| x in s;
    if s != {x} {
      var rest := s - {x};
      OldestExists(rest, backups);
      var z :| z in rest && forall y :: y in rest ==> backups[z].mtime <= backups[y].mtime;
      if backups[x].mtime <= backups[z].mtime {
        assert forall y :: y in s ==> backups[x].mtime <= backups[y].mtime;
      } else {
        assert forall y :: y in s ==> backups[z].mtime <= backups[y].mtime;
      }
    }
  }

  /** Pruning keeps exactly `MAX_BACKUPS` of the matching backups when there
      were more, deletes only matching backups, and changes no content. */
  lemma PruneRetains(before: map<string, Backup>, after: map<string, Backup>, prefix: string)
    requires PrunedTo(before, after, prefix)
    ensures Matching(after, prefix) <= Matching(before, prefix)
    ensures |Matching(after, prefix)| ==
              if |Matching(before, prefix)| <= MAX_BACKUPS then |Matching(before, prefix)| else MAX_BACKUPS
    ensures |Matching(before, prefix) - Matching(after, prefix)| ==
              if |Matching(before, prefix)| <= MAX_BACKUPS then 0 else |Matching(before, prefix)| - MAX_BACKUPS
    ensures forall n :: n in before && !IsBackupOf(n, prefix) ==> n in after && after[n] == before[n]
    ensures forall n :: n in after ==> n in before && after[n] == before[n]
  {
    var found, kept := Matching(before, prefix), Matching(after, prefix);
    assert kept <= found;
    assert found == (found - kept) + kept;
    assert |found| == |found - kept| + |kept|;
  }

  /** A backup strictly newer than every other matching one survives. */
  lemma NewestSurvives(before: map<string, Backup>, after: map<string, Backup>, prefix: string, k: string)
    requires PrunedTo(before, after, prefix)
    requires k in before
    requires forall j :: j in Matching(before, prefix) && j != k ==> before[j].mtime < before[k].mtime
    ensures k in after && after[k] == before[k]
  {
    var found, kept := Matching(before, prefix), Matching(after, prefix);
    if |found| > MAX_BACKUPS && IsBackupOf(k, prefix) {
      assert |kept| == MAX_BACKUPS;
      var j :| j in kept;
      assert k in found && j in found;
    }
  }

  /** A backup strictly older than every other matching one is deleted
      whenever pruning deletes anything. */
  lemma StrictlyOldestDeleted(before: map<string, Backup>, after: map<string, Backup>, prefix: string, k: string)
    requires PrunedTo(before, after, prefix)
    requires |Matching(before, prefix)| > MAX_BACKUPS
    requires k in Matching(before, prefix)
    requires forall j :: j in Matching(before, prefix) && j != k ==> before[k].mtime < before[j].mtime
    ensures k !in after
  {
    var found, kept := Matching(before, prefix), Matching(after, prefix);
    PruneRetains(before, after, prefix);
    assert |found - kept| > 0;
    var gone :| gone in found - kept;
    assert gone !in after;
  }

  // ----------------------------------------------------------------- writing

  /** Reading a document back after writing it gives the object written. */
  lemma ReadAfterWrite(d: Disk, d': Disk, filename: string, o: JsonObject, c: Codec, ts: string, now: int)
    requires Lawful(c)
    requires d.writable
    requires WriteStep(d, d', filename, c.render(JObject(o)), ts, now)
    ensures ReadJson(d', filename, c) == o
  {
    assert d'.active[filename] == c.render(JObject(o));
  }

  /** A write touches no other document and no export. */
  lemma WriteKeepsOthers(d: Disk, d': Disk, filename: string, text: string, ts: string, now: int, other: string)
    requires WriteStep(d, d', filename, text, ts, now)
    requires other != filename
    ensures other in d'.active <==> other in d.active
    ensures other in d.active ==> d'.active[other] == d.active[other]
    ensures d'.exports == d.exports
  {
  }

  /** The first write of a document makes no backup. */
  lemma NewFileGetsNoBackup(d: Disk, d': Disk, filename: string, text: string, ts: string, now: int)
    requires WriteStep(d, d', filename, text, ts, now)
    requires filename !in d.active
    ensures d'.backups == d.backups
    ensures d.writable ==> d'.active == d.active[filename := text]
  {
  }

  /** Overwriting an existing document first saves its old content as a
      backup, which survives pruning because it is the newest; then the
      document holds the new text. */
  lemma BackupBeforeOverwrite(d: Disk, d': Disk, filename: string, text: string, ts: string, now: int)
    requires WriteStep(d, d', filename, text, ts, now)
    requires d.writable && filename in d.active
    requires BackupName(filename, ts) !in d.backups
    requires forall j :: j in Matching(d.backups, BackupPrefix(filename)) ==> d.backups[j].mtime < now
    ensures BackupName(filename, ts) in d'.backups
    ensures d'.backups[BackupName(filename, ts)] == Backup(d.active[filename], now)
    ensures d'.active == d.active[filename := text]
  {
    var e := EnsureDirs(d);
    assert CopySucceeds(e, filename, ts);
    NewestSurvives(WithSnapshot(e, filename, ts, now), d'.backups, BackupPrefix(filename), BackupName(filename, ts));
  }

  /** A second snapshot of a document in the same second collides with the
      first: no backup is added and none is pruned, yet the write goes on. */
  lemma SameSecondWriteSkipsBackup(d: Disk, d': Disk, filename: string, text: string, ts: string, now: int)
    requires WriteStep(d, d', filename, text, ts, now)
    requires BackupName(filename, ts) in d.backups
    ensures d'.backups == d.backups
    ensures d.writable ==> d'.active == d.active[filename := text]
  {
  }

  /** `writeStringToFile` never makes a backup. */
  lemma WriteStringMakesNoBackup(d: Disk, filename: string, text: string)
    ensures WrittenString(d, filename, text).backups == d.backups
    ensures d.writable ==> WrittenString(d, filename, text).active == d.active[filename := text]
  {
  }

  /** A write keeps the retention bound for its own document name. */
  lemma RetentionBound(d: Disk, d': Disk, filename: string, text: string, ts: string, now: int)
    requires WriteStep(d, d', filename, text, ts, now)
    requires |Matching(d.backups, BackupPrefix(filename))| <= MAX_BACKUPS
    ensures |Matching(d'.backups, BackupPrefix(filename))| <= MAX_BACKUPS
  {
    var e := EnsureDirs(d);
    if CopySucceeds(e, filename, ts) {
      PruneRetains(WithSnapshot(e, filename, ts, now), d'.backups, BackupPrefix(filename));
    }
  }

  /** For any other prefix a write adds at most its own new backup, and
      what it prunes is not bounded by that prefix: the bound holds per
      written name only. */
  lemma OtherPrefixesGainAtMostOne(d: Disk, d': Disk, filename: string, text: string, ts: string, now: int, prefix: string)
    requires WriteStep(d, d', filename, text, ts, now)
    ensures Matching(d'.backups, prefix) <= Matching(d.backups, prefix) + {BackupName(filename, ts)}
  {
    var e := EnsureDirs(d);
    if CopySucceeds(e, filename, ts) {
      PruneRetains(WithSnapshot(e, filename, ts, now), d'.backups, BackupPrefix(filename));
    }
  }

  /** Two writes in different seconds to an existing `base.json`: the second
      write's backup holds what the first one wrote, and the document holds
      what the second one wrote. */
  lemma TwoWrites(d0: Disk, d1: Disk, d2: Disk, base: string, t1: string, t2: string,
                  ts1: string, ts2: string, now1: int, now2: int)
    requires !Contains(base, JSON_EXT)
    requires d0.writable && base + JSON_EXT in d0.active
    requires WriteStep(d0, d1, base + JSON_EXT, t1, ts1, now1)
    requires WriteStep(d1, d2, base + JSON_EXT, t2, ts2, now2)
    requires ts1 != ts2
    requires BackupName(base + JSON_EXT, ts2) !in d0.backups
    requires forall j :: j in Matching(d0.backups, base) ==> d0.backups[j].mtime < now1
    requires now1 < now2
    ensures BackupName(base + JSON_EXT, ts2) in d2.backups
    ensures d2.backups[BackupName(base + JSON_EXT, ts2)] == Backup(t1, now2)
    ensures d2.active[base + JSON_EXT] == t2
  {
    var f := base + JSON_EXT;
    JsonNameParts(base, ts1);
    JsonNameParts(base, ts2);
    var n1, n2 := BackupName(f, ts1), BackupName(f, ts2);
    assert n1[|base| + 1..|n1| - |JSON_EXT|] == ts1;
    assert n2[|base| + 1..|n2| - |JSON_EXT|] == ts2;
    assert n1 != n2;
    OtherPrefixesGainAtMostOne(d0, d1, f, t1, ts1, now1, base);
    assert d1.active[f] == t1;
    var e := EnsureDirs(d0);
    if CopySucceeds(e, f, ts1) {
      PruneRetains(WithSnapshot(e, f, ts1, now1), d1.backups, BackupPrefix(f));
    }
    assert forall j :: j in Matching(d1.backups, base) ==> d1.backups[j].mtime < now2;
    BackupBeforeOverwrite(d1, d2, f, t2, ts2, now2);
  }

  // ----------------------------------------------------------------- restore

  /** Restoring from a backup that does not exist fails and changes nothing. */
  lemma RestoreMissingBackup(d: Disk, d': Disk, backup: string, target: string, ts: string, now: int, ok: bool)
    requires RestoreStep(d, d', backup, target, ts, now, ok)
    requires backup !in d.backups
    ensures !ok && d' == d
  {
  }

  /** Restoring over an existing document first saves its current content as
      the newest backup; the restore succeeds exactly when the chosen backup
      survives that snapshot's pruning, which it always does when the prefix
      does not select it; then the document holds the backup's content. */
  lemma RestoreSafety(d: Disk, d': Disk, backup: string, target: string, ts: string, now: int, ok: bool)
    requires RestoreStep(d, d', backup, target, ts, now, ok)
    requires backup in d.backups && target in d.active && d.writable && d.backupDir
    requires BackupName(target, ts) !in d.backups
    requires forall j :: j in Matching(d.backups, BackupPrefix(target)) ==> d.backups[j].mtime < now
    ensures BackupName(target, ts) in d'.backups
    ensures d'.backups[BackupName(target, ts)] == Backup(d.active[target], now)
    ensures ok <==> backup in d'.backups
    ensures !IsBackupOf(backup, BackupPrefix(target)) ==> ok
    ensures ok ==> d'.active == d.active[target := d.backups[backup].content]
    ensures !ok ==> d'.active == d.active
  {
    assert CopySucceeds(d, target, ts);
    var before := WithSnapshot(d, target, ts, now);
    NewestSurvives(before, d'.backups, BackupPrefix(target), BackupName(target, ts));
    PruneRetains(before, d'.backups, BackupPrefix(target));
  }

  /** Restore can delete its own source: when the snapshot of the target
      pushes the matching backups over the bound and the chosen backup is the
      oldest of them, pruning deletes it, the copy then fails, and the
      restore returns false with the document unchanged. */
  lemma RestoreCanDeleteItsSource(d: Disk, d': Disk, backup: string, target: string, ts: string, now: int, ok: bool)
    requires RestoreStep(d, d', backup, target, ts, now, ok)
    requires backup in d.backups && CopySucceeds(d, target, ts)
    requires |Matching(WithSnapshot(d, target, ts, now), BackupPrefix(target))| > MAX_BACKUPS
    requires IsBackupOf(backup, BackupPrefix(target))
    requires forall j :: j in Matching(WithSnapshot(d, target, ts, now), BackupPrefix(target)) && j != backup ==>
               d.backups[backup].mtime < WithSnapshot(d, target, ts, now)[j].mtime
    ensures !ok
    ensures backup !in d'.backups
    ensures d'.active == d.active
  {
    var before := WithSnapshot(d, target, ts, now);
    assert before[backup] == d.backups[backup];
    StrictlyOldestDeleted(before, d'.backups, BackupPrefix(target), backup);
  }

  // ------------------------------------------------------------ export/import

  /** Unbundling an export gives back every document except one named
      `_metadata`, which the metadata replaced. */
  lemma UnbundleBundle(docs: map<string, JsonObject>, isoNow: string)
    ensures Unbundle(Bundle(docs, isoNow)) == Some(docs - {METADATA_KEY})
  {
    var b := Bundle(docs, isoNow);
    assert forall k :: k in b && k != METADATA_KEY ==> b[k] == JObject(docs[k]);
    var r := Unbundle(b);
    assert r.Some?;
    var m := map k | k in b && k != METADATA_KEY :: b[k].fields;
    assert r.value == m;
    assert m == docs - {METADATA_KEY};
  }

  /** Importing the file an export wrote returns exactly the exported
      documents, provided none was named `_metadata`. */
  lemma ExportImportRoundTrip(d: Disk, docs: map<string, JsonObject>, ts: string, isoNow: string, c: Codec)
    requires Lawful(c) && d.writable
    requires METADATA_KEY !in docs
    ensures Exported(d, docs, ts, isoNow, c).1 == Some(ExportName(ts))
    ensures Imported(Exported(d, docs, ts, isoNow, c).0, ExportName(ts), c) == Some(docs)
  {
    UnbundleBundle(docs, isoNow);
    assert docs - {METADATA_KEY} == docs;
  }

  /** An export that cannot be written returns no path and changes nothing. */
  lemma ExportFailure(d: Disk, docs: map<string, JsonObject>, ts: string, isoNow: string, c: Codec)
    requires !d.writable
    ensures Exported(d, docs, ts, isoNow, c) == (d, None)
  {
  }

  /** A successful export is listed among the export files. */
  lemma ExportIsListed(d: Disk, docs: map<string, JsonObject>, ts: string, isoNow: string, c: Codec)
    requires d.writable
    ensures ExportName(ts) in ExportFiles(Exported(d, docs, ts, isoNow, c).0)
  {
    var name := ExportName(ts);
    assert name[|name| - |JSON_EXT|..] == JSON_EXT;
  }
}
