/** `LocalStorage`: the document store over the three file areas, its
    operations written step by step and each proved against its
    specification in `StorageSpec`. */
module Storage {
  import opened Wrappers
  import opened Strings
  import opened Json
  import opened StorageSpec
  import StorageProperties

  class LocalStorage {
    /** The printer and parser the store writes and reads text with. */
    const codec: Codec
    /** Whether the disk accepts writes, copies and deletes. */
    const writable: bool

    var dataDir: bool
    var backupDir: bool
    var exportDir: bool
    /** The active area `data/`: file name to text. */
    var active: map<string, string>
    /** The backup area `data/backups/`: file name to text and modification time. */
    var backups: map<string, Backup>
    /** The export area `data/exports/`: file name to text. */
    var exports: map<string, string>

    ghost function State(): Disk
      reads this
    {
      Disk(dataDir, backupDir, exportDir, writable, active, backups, exports)
    }

    ghost predicate Valid()
      reads this
    {
      State().Valid()
    }

    /** A store over the files already on disk. */
    constructor (initial: Disk, codec: Codec)
      requires initial.Valid()
      ensures Valid() && State() == initial && this.codec == codec
    {
      this.codec := codec;
      writable := initial.writable;
      dataDir, backupDir, exportDir := initial.dataDir, initial.backupDir, initial.exportDir;
      active, backups, exports := initial.active, initial.backups, initial.exports;
    }

    method EnsureDirectoriesExist()
      requires Valid()
      modifies this
      ensures Valid() && State() == EnsureDirs(old(State()))
    {
      if writable {
        dataDir, backupDir, exportDir := true, true, true;
      }
    }

    method ReadJsonFile(filename: string) returns (o: JsonObject)
      ensures o == ReadJson(State(), filename, codec)
    {
      if filename !in active {
        return map[];
      }
      var text := active[filename];
      if IsBlank(text) {
        return map[];
      }
      match codec.parse(text) {
        case Some(JObject(fields)) =>
          o := fields;
        case _ =>
          o := map[];
      }
    }

    method WriteJsonFile(filename: string, json: JsonObject, ts: string, now: int)
      requires Valid()
      modifies this
      ensures Valid()
      ensures WriteStep(old(State()), State(), filename, codec.render(JObject(json)), ts, now)
    {
      EnsureDirectoriesExist();
      ghost var e := State();
      if filename in active {
        CreateBackup(filename, ts, now);
      }
      assert SnapshotTaken(e, backups, filename, ts, now);
      var text := codec.render(JObject(json));
      if writable {
        active := active[filename := text];
      }
      assert State() == e.(active := if e.writable then e.active[filename := text] else e.active, backups := backups);
    }

    method WriteStringToFile(filename: string, content: string)
      requires Valid()
      modifies this
      ensures Valid() && State() == WrittenString(old(State()), filename, content)
    {
      EnsureDirectoriesExist();
      if writable {
        active := active[filename := content];
      }
    }

    method CreateBackup(filename: string, ts: string, now: int)
      requires Valid()
      modifies this
      ensures Valid()
      ensures SnapshotTaken(old(State()), backups, filename, ts, now)
      ensures State() == old(State()).(backups := backups)
    {
      var name := BackupName(filename, ts);
      if writable && backupDir && filename in active && name !in backups {
        backups := backups[name := Backup(active[filename], now)];
        CleanOldBackups(filename);
      }
    }

    /** Deletes the oldest matching backup, one at a time, until
        `MAX_BACKUPS` are left. */
    method CleanOldBackups(filename: string)
      requires Valid()
      modifies this
      ensures Valid()
      ensures PrunedTo(old(backups), backups, BackupPrefix(filename))
      ensures State() == old(State()).(backups := backups)
    {
      var prefix := BackupPrefix(filename);
      var found := set n | n in backups && IsBackupOf(n, prefix);
      if backupDir && |found| > MAX_BACKUPS {
        var before := backups;
        var left := backups;
        var remaining := found;
        var i := 0;
        while i < |found| - MAX_BACKUPS
          invariant 0 <= i <= |found| - MAX_BACKUPS
          invariant remaining <= found && |remaining| == |found| - i
          invariant left == before - (found - remaining)
          invariant forall gone, kept :: gone in found - remaining && kept in remaining ==>
                      before[gone].mtime <= before[kept].mtime
          modifies {}
        {
          StorageProperties.OldestExists(remaining, before);
          var oldest :| oldest in remaining && forall k :: k in remaining ==> before[oldest].mtime <= before[k].mtime;
          left := left - {oldest};
          remaining := remaining - {oldest};
          i := i + 1;
        }
        assert Matching(left, prefix) == remaining;
        backups := left;
      }
    }

    method RestoreFromBackup(backup: string, target: string, ts: string, now: int) returns (ok: bool)
      requires Valid()
      modifies this
      ensures Valid()
      ensures RestoreStep(old(State()), State(), backup, target, ts, now, ok)
    {
      if backup !in backups {
        return false;
      }
      if target in active {
        CreateBackup(target, ts, now);
      }
      if writable && backup in backups {
        active := active[target := backups[backup].content];
        ok := true;
      } else {
        ok := false;
      }
    }

    method ClearAllData()
      requires Valid()
      modifies this
      ensures Valid() && State() == Cleared(old(State()))
    {
      if dataDir {
        var files := set n | n in active && EndsWith(n, JSON_EXT);
        var left := active;
        var todo := files;
        while todo != {}
          invariant todo <= files
          invariant left == if writable then active - (files - todo) else active
          modifies {}
          decreases todo
        {
          var f :| f in todo;
          if writable {
            left := left - {f};
          }
          todo := todo - {f};
        }
        active := left;
      }
    }

    method ExportData(docs: map<string, JsonObject>, ts: string, isoNow: string) returns (path: Option<string>)
      requires Valid()
      modifies this
      ensures Valid()
      ensures (State(), path) == Exported(old(State()), docs, ts, isoNow, codec)
    {
      EnsureDirectoriesExist();
      var name := ExportName(ts);
      var bundle: JsonObject := map[];
      var todo := docs.Keys;
      while todo != {}
        invariant todo <= docs.Keys
        invariant bundle == map k | k in docs.Keys - todo :: JObject(docs[k])
        modifies {}
        decreases todo
      {
        var k :| k in todo;
        bundle := bundle[k := JObject(docs[k])];
        todo := todo - {k};
      }
      assert docs.Keys - todo == docs.Keys;
      bundle := bundle[METADATA_KEY := JObject(Metadata(isoNow))];
      assert bundle == Bundle(docs, isoNow);
      if writable {
        exports := exports[name := codec.render(JObject(bundle))];
        path := Some(name);
      } else {
        path := None;
      }
    }

    method ImportData(name: string) returns (r: Option<map<string, JsonObject>>)
      ensures r == Imported(State(), name, codec)
    {
      if name !in exports {
        return None;
      }
      var parsed := codec.parse(exports[name]);
      if !(parsed.Some? && parsed.value.JObject?) {
        return None;
      }
      var o := parsed.value.fields - {METADATA_KEY};
      var result: map<string, JsonObject> := map[];
      var todo := o.Keys;
      while todo != {}
        invariant todo <= o.Keys
        invariant forall k :: k in o.Keys - todo ==> o[k].JObject?
        invariant result == map k | k in o.Keys - todo :: o[k].fields
        decreases todo
      {
        var k :| k in todo;
        if !o[k].JObject? {
          return None;
        }
        result := result[k := o[k].fields];
        todo := todo - {k};
      }
      assert o.Keys - todo == o.Keys;
      assert forall k :: k in parsed.value.fields && k != METADATA_KEY ==> k in o.Keys;
      assert result == Unbundle(parsed.value.fields).value;
      return Some(result);
    }

    method GetExportFiles() returns (files: set<string>)
      ensures files == ExportFiles(State())
    {
      if exportDir {
        files := set n | n in exports && EndsWith(n, JSON_EXT);
      } else {
        files := {};
      }
    }

    method GetBackupFiles(filename: string) returns (files: set<string>)
      requires Valid()
      ensures files == BackupFiles(State(), filename)
      ensures files == Matching(backups, BackupPrefix(filename))
    {
      if backupDir {
        var prefix := BackupPrefix(filename);
        files := set n | n in backups && IsBackupOf(n, prefix);
      } else {
        files := {};
      }
    }

    method GetStorageStats() returns (stats: StorageStats)
      ensures stats.dataFiles == if dataDir then |JsonFiles(active)| else 0
      ensures stats.backupFiles == if backupDir then |backups| else 0
      ensures stats.exportFiles == if exportDir then |exports| else 0
    {
      var dataFiles := if dataDir then |set n | n in active && EndsWith(n, JSON_EXT)| else 0;
      var backupFiles := if backupDir then |backups| else 0;
      var exportFiles := if exportDir then |exports| else 0;
      stats := StorageStats(dataFiles, backupFiles, exportFiles);
    }
  }
}
