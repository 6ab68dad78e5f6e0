/** The local JSON document store as a state machine over three file areas:
    active documents (`data/`), backups (`data/backups/`) and exports
    (`data/exports/`). Each operation of the store is specified here as a
    function or relation between a `Disk` before and after it; the class in
    `Storage` implements them step by step. */
module StorageSpec {
  import opened Wrappers
  import opened Strings
  import opened Json

  /** How many backups of one document name are kept. */
  const MAX_BACKUPS: nat := 10
  const JSON_EXT: string := ".json"
  const METADATA_KEY: string := "_metadata"
  const FORMAT_VERSION: string := "1.0"

  /** A backup file: its text and its last-modified time. */
  datatype Backup = Backup(content: string, mtime: int)

  /** The three areas, whether each directory exists, and whether the disk
      accepts writes at all (a read-only or full disk makes every write,
      copy and delete fail with an `IOException`). */
  datatype Disk = Disk(
    dataDir: bool,
    backupDir: bool,
    exportDir: bool,
    writable: bool,
    active: map<string, string>,
    backups: map<string, Backup>,
    exports: map<string, string>)
  {
    /** The backup and export directories live inside the data directory,
        and a missing directory holds no files. */
    predicate Valid() {
      && (backupDir ==> dataDir)
      && (exportDir ==> dataDir)
      && (!dataDir ==> active == map[])
      && (!backupDir ==> backups == map[])
      && (!exportDir ==> exports == map[])
    }
  }

  // ---------------------------------------------------------------- names

  /** `filename.replace(".json", "_" + ts + ".json")`. */
  function BackupName(filename: string, ts: string): string {
    ReplaceAll(filename, JSON_EXT, "_" + ts + JSON_EXT)
  }

  /** `filename.replace(".json", "")`, the prefix backups are selected by. */
  function BackupPrefix(filename: string): string {
    ReplaceAll(filename, JSON_EXT, "")
  }

  /** The file-name filter of both `cleanOldBackups` and `getBackupFiles`. */
  predicate IsBackupOf(name: string, prefix: string) {
    StartsWith(name, prefix) && EndsWith(name, JSON_EXT)
  }

  /** The backups the filter selects for `prefix`. */
  function Matching(backups: map<string, Backup>, prefix: string): set<string> {
    set n | n in backups && IsBackupOf(n, prefix)
  }

  /** `"export_" + ts + ".json"`. */
  function ExportName(ts: string): string {
    "export_" + ts + JSON_EXT
  }

  /** For a document named `base.json` whose base has no ".json" in it, the
      backup is `base_<ts>.json`, the prefix is `base`, and the new backup
      is one of the backups the prefix selects. */
  lemma JsonNameParts(base: string, ts: string)
    requires !Contains(base, JSON_EXT)
    ensures BackupName(base + JSON_EXT, ts) == base + "_" + ts + JSON_EXT
    ensures BackupPrefix(base + JSON_EXT) == base
    ensures IsBackupOf(BackupName(base + JSON_EXT, ts), BackupPrefix(base + JSON_EXT))
  {
    var rep := "_" + ts + JSON_EXT;
    ReplaceAllTrailing(base, JSON_EXT, rep);
    ReplaceAllTrailing(base, JSON_EXT, "");
    ReplaceAllAbsent(base, JSON_EXT, rep);
    ReplaceAllAbsent(base, JSON_EXT, "");
    var name := base + rep;
    assert name[..|base|] == base;
    assert name[|name| - |JSON_EXT|..] == JSON_EXT;
  }

  /** The prefix filter does not stop at the document name: when one
      document name extends another (`task.json`, `tasks.json`), the backups
      of the longer one are selected for the shorter one, so pruning the
      shorter one's backups can delete the longer one's. */
  lemma PrefixOverlap(short: string, long: string, ts: string)
    requires !Contains(short, JSON_EXT) && !Contains(long, JSON_EXT)
    requires StartsWith(long, short)
    ensures IsBackupOf(BackupName(long + JSON_EXT, ts), BackupPrefix(short + JSON_EXT))
  {
    JsonNameParts(long, ts);
    JsonNameParts(short, ts);
    var name := long + "_" + ts + JSON_EXT;
    assert name[..|short|] == long[..|short|];
  }

  // ------------------------------------------------------------- directories

  /** `ensureDirectoriesExist`: creates the three directories, unless the
      disk refuses writes, in which case the first creation fails and the
      error is only logged. */
  function EnsureDirs(d: Disk): (e: Disk)
    ensures d.Valid() ==> e.Valid()
    ensures e.writable ==> e.dataDir && e.backupDir && e.exportDir
    ensures e.active == d.active && e.backups == d.backups && e.exports == d.exports
    ensures e.writable == d.writable
  {
    if d.writable then d.(dataDir := true, backupDir := true, exportDir := true) else d
  }

  // ----------------------------------------------------------------- reading

  /** `readJsonFile`: a missing file, a blank file, text that does not
      parse, and text that parses to something other than an object all
      read as the empty object. */
  function ReadJson(d: Disk, filename: string, c: Codec): JsonObject {
    if filename !in d.active then map[]
    else
      var text := d.active[filename];
      if IsBlank(text) then map[]
      else match c.parse(text)
        case Some(JObject(o)) => o
        case _ => map[]
  }

  // ----------------------------------------------------------------- backups

  /** `Files.copy(original, backup)` in `createBackup` succeeds: the disk
      takes writes, the backup directory exists, the original exists, and
      no backup of that name exists yet (the copy does not replace). */
  predicate CopySucceeds(d: Disk, filename: string, ts: string) {
    && d.writable
    && d.backupDir
    && filename in d.active
    && BackupName(filename, ts) !in d.backups
  }

  /** The backups right after a successful copy, before pruning. */
  function WithSnapshot(d: Disk, filename: string, ts: string, now: int): map<string, Backup>
    requires filename in d.active
  {
    d.backups[BackupName(filename, ts) := Backup(d.active[filename], now)]
  }

  /** `cleanOldBackups`: if more than `MAX_BACKUPS` backups match the
      prefix, the oldest ones by modification time are deleted until exactly
      `MAX_BACKUPS` remain; every other backup stays as it was. Among equal
      modification times the choice is left open, as Java leaves it to the
      order `listFiles` returns. */
  ghost predicate PrunedTo(before: map<string, Backup>, after: map<string, Backup>, prefix: string) {
    var found := Matching(before, prefix);
    if |found| <= MAX_BACKUPS then after == before
    else
      && after.Keys <= before.Keys
      && (forall n :: n in after ==> after[n] == before[n])
      && (forall n :: n in before && !IsBackupOf(n, prefix) ==> n in after)
      && |Matching(after, prefix)| == MAX_BACKUPS
      && (forall gone, kept ::
            gone in found && gone !in after && kept in Matching(after, prefix) ==>
              before[gone].mtime <= before[kept].mtime)
  }

  /** `createBackup(filename)`: copy, then prune; a failed copy (of which a
      same-second name collision is one case) skips the pruning. */
  ghost predicate SnapshotTaken(d: Disk, after: map<string, Backup>, filename: string, ts: string, now: int) {
    if CopySucceeds(d, filename, ts) then PrunedTo(WithSnapshot(d, filename, ts, now), after, BackupPrefix(filename))
    else after == d.backups
  }

  // ----------------------------------------------------------------- writing

  /** `writeJsonFile(filename, json)` with `text` the printed object: make
      the directories, snapshot the file if it exists, then overwrite it. */
  ghost predicate WriteStep(d: Disk, d': Disk, filename: string, text: string, ts: string, now: int) {
    var e := EnsureDirs(d);
    && SnapshotTaken(e, d'.backups, filename, ts, now)
    && d' == e.(active := if e.writable then e.active[filename := text] else e.active,
                backups := d'.backups)
  }

  /** `writeStringToFile`: the same write without any backup. */
  function WrittenString(d: Disk, filename: string, text: string): (d': Disk)
    ensures d'.backups == d.backups
  {
    var e := EnsureDirs(d);
    if e.writable then e.(active := e.active[filename := text]) else e
  }

  // ----------------------------------------------------------------- restore

  /** `restoreFromBackup(backup, target)`, with `ok` its result: an absent
      backup changes nothing; otherwise an existing target is snapshotted
      (with pruning), then the backup, if it still exists, is copied over
      the target. */
  ghost predicate RestoreStep(d: Disk, d': Disk, backup: string, target: string, ts: string, now: int, ok: bool) {
    if backup !in d.backups then !ok && d' == d
    else
      && SnapshotTaken(d, d'.backups, target, ts, now)
      && ok == (d.writable && backup in d'.backups)
      && d' == d.(backups := d'.backups,
                  active := if ok then d.active[target := d.backups[backup].content] else d.active)
  }

  // ------------------------------------------------------------------- clear

  /** `clearAllData`: deletes every `*.json` file of the active area. */
  function Cleared(d: Disk): (d': Disk)
    ensures d.writable ==> forall n :: n in d'.active ==> !EndsWith(n, JSON_EXT)
    ensures forall n :: n in d.active && !EndsWith(n, JSON_EXT) ==> n in d'.active && d'.active[n] == d.active[n]
    ensures d'.backups == d.backups && d'.exports == d.exports
  {
    if d.writable then d.(active := map n | n in d.active && !EndsWith(n, JSON_EXT) :: d.active[n]) else d
  }

  // ------------------------------------------------------------ export/import

  /** The `_metadata` member of an export. */
  function Metadata(isoNow: string): JsonObject {
    map["exportDate" := JString(isoNow), "version" := JString(FORMAT_VERSION)]
  }

  /** The object `exportData` writes: every document under its name, then
      `_metadata`, which replaces a document of that name. */
  function Bundle(docs: map<string, JsonObject>, isoNow: string): (b: JsonObject)
    ensures b.Keys == docs.Keys + {METADATA_KEY}
    ensures b[METADATA_KEY] == JObject(Metadata(isoNow))
    ensures forall k :: k in docs && k != METADATA_KEY ==> b[k] == JObject(docs[k])
  {
    (map k | k in docs :: JObject(docs[k]))[METADATA_KEY := JObject(Metadata(isoNow))]
  }

  /** `exportData`: the new disk and the name of the export file, or `None`
      when the write fails. */
  function Exported(d: Disk, docs: map<string, JsonObject>, ts: string, isoNow: string, c: Codec): (Disk, Option<string>) {
    var e := EnsureDirs(d);
    if e.writable then
      (e.(exports := e.exports[ExportName(ts) := c.render(JObject(Bundle(docs, isoNow)))]), Some(ExportName(ts)))
    else (e, None)
  }

  /** What `importData` makes of the parsed top-level object: `_metadata`
      dropped, and every other member must itself be an object. */
  function Unbundle(o: JsonObject): (r: Option<map<string, JsonObject>>)
    ensures r.Some? <==> forall k :: k in o && k != METADATA_KEY ==> o[k].JObject?
    ensures r.Some? ==> r.value.Keys == o.Keys - {METADATA_KEY}
  {
    if forall k :: k in o && k != METADATA_KEY ==> o[k].JObject? then
      Some(map k | k in o && k != METADATA_KEY :: o[k].fields)
    else None
  }

  /** `importData(path)` for an export file: `None` for a missing file,
      text that does not parse to an object, or a non-object member. */
  function Imported(d: Disk, name: string, c: Codec): Option<map<string, JsonObject>> {
    if name !in d.exports then None
    else match c.parse(d.exports[name])
      case Some(JObject(o)) => Unbundle(o)
      case _ => None
  }

  // ---------------------------------------------------------------- listings

  /** `getExportFiles`. */
  function ExportFiles(d: Disk): set<string> {
    if d.exportDir then set n | n in d.exports && EndsWith(n, JSON_EXT) else {}
  }

  /** `getBackupFiles(filename)`. */
  function BackupFiles(d: Disk, filename: string): set<string> {
    if d.backupDir then Matching(d.backups, BackupPrefix(filename)) else {}
  }

  /** The counts `getStorageStats` reports. */
  datatype StorageStats = StorageStats(dataFiles: nat, backupFiles: nat, exportFiles: nat)

  function JsonFiles(active: map<string, string>): set<string> {
    set n | n in active && EndsWith(n, JSON_EXT)
  }
}
