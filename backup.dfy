/**
 * The backup protocol of the desktop shell, over a file system seen as a
 * map from paths to contents: the daily backup taken at start-up, the
 * restore of a chosen file over the live database, and the manual
 * timestamped backup.
 *
 * The application data directory and the formatted clock readings are
 * parameters. Each command is a method over a `FileSystem` that performs the
 * same sequence of file operations as the code; a pure function of the old
 * file map states the outcome, and the lemmas are about those functions.
 */
module Backup {
  import opened Wrappers

  /** A path as its components; `Join` is `Path::join` with one component. */
  type Path = seq<string>

  type Bytes = seq<bv8>

  type Files = map<Path, Bytes>

  function Join(dir: Path, name: string): Path
  {
    dir + [name]
  }

  /**
   * An `std::io::Error`: a missing file, or any other failure, each with the
   * text it displays. The wording is the platform's own (a missing file reads
   * differently on Unix and on Windows), so it is supplied, not fixed here.
   */
  datatype IoError = NotFound(text: string) | OtherError(text: string)

  /**
   * How the operating system ends an operation whose source is there: a
   * rename, a removal or the creation of a directory either happens whole or
   * fails (a file in use, permission denied) and changes nothing.
   */
  datatype Outcome = Succeeds | Fails(text: string)

  /**
   * The same for `fs::copy`, which may also fail after it has created its
   * target and written the first `written` bytes to it (a full disk).
   */
  datatype CopyOutcome = CopySucceeds | CopyFails(text: string) | CopyFailsAfter(written: nat, text: string)

  // ---------------------------------------------------------------------------
  // The paths the commands use

  const DbName := "market.db"

  function DbPath(dir: Path): Path { Join(dir, DbName) }

  /** `db_path.with_extension("db.old")`. */
  function OldPath(dir: Path): Path { Join(dir, "market.db.old") }

  function WalPath(dir: Path): Path { Join(dir, "market.db-wal") }

  function ShmPath(dir: Path): Path { Join(dir, "market.db-shm") }

  /** `backups/market_<today>.db`, `today` being the local date as `%Y-%m-%d`. */
  function DailyBackupPath(dir: Path, today: string): Path
  {
    Join(Join(dir, "backups"), "market_" + today + ".db")
  }

  /** The file name of a manual backup, `now` being the local time as `%Y-%m-%d-%H-%M-%S`. */
  function ManualBackupName(now: string): string
  {
    "manuel-" + now + ".db"
  }

  function ManualBackupPath(dir: Path, now: string): Path
  {
    Join(Join(dir, "manualbackups"), ManualBackupName(now))
  }

  /** The files of the live database: the database itself and its two SQLite journal files. */
  predicate IsLiveFile(dir: Path, p: Path)
  {
    p == DbPath(dir) || p == WalPath(dir) || p == ShmPath(dir)
  }

  /** No backup path is the live database, its journals or the `.old` copy, and the two backup folders never meet. */
  lemma BackupPathsSeparate(dir: Path, today: string, now: string)
    ensures !IsLiveFile(dir, DailyBackupPath(dir, today)) && DailyBackupPath(dir, today) != OldPath(dir)
    ensures !IsLiveFile(dir, ManualBackupPath(dir, now)) && ManualBackupPath(dir, now) != OldPath(dir)
    ensures DailyBackupPath(dir, today) != ManualBackupPath(dir, now)
  {
    assert DailyBackupPath(dir, today)[|dir|] == "backups";
    assert ManualBackupPath(dir, now)[|dir|] == "manualbackups";
  }

  lemma LivePathsDistinct(dir: Path)
    ensures DbPath(dir) != OldPath(dir) && DbPath(dir) != WalPath(dir) && DbPath(dir) != ShmPath(dir)
    ensures OldPath(dir) != WalPath(dir) && OldPath(dir) != ShmPath(dir) && WalPath(dir) != ShmPath(dir)
  {
    assert DbPath(dir)[|dir|] == "market.db";
    assert OldPath(dir)[|dir|] == "market.db.old";
    assert WalPath(dir)[|dir|] == "market.db-wal";
    assert ShmPath(dir)[|dir|] == "market.db-shm";
  }

  /** Manual backups taken at different times have different paths. */
  lemma ManualBackupPathsDistinct(dir: Path, now1: string, now2: string)
    requires now1 != now2
    ensures ManualBackupPath(dir, now1) != ManualBackupPath(dir, now2)
  {
    var n1 := ManualBackupName(now1);
    var n2 := ManualBackupName(now2);
    assert n1[7..|n1| - 3] == now1;
    assert n2[7..|n2| - 3] == now2;
    assert ManualBackupPath(dir, now1)[|dir| + 1] == n1;
    assert ManualBackupPath(dir, now2)[|dir| + 1] == n2;
  }


  // ---------------------------------------------------------------------------
  // The file operations

  /** The first `n` bytes of `b`, or all of them when it is shorter. */
  function Prefix(b: Bytes, n: nat): (p: Bytes)
    ensures p <= b
    ensures |p| == if n < |b| then n else |b|
  {
    if n < |b| then b[..n] else b
  }

  /**
   * `fs::copy`: a missing source changes nothing; otherwise the target is
   * created or overwritten with the source's content, or, on a failure after
   * the target was opened, with only its first bytes.
   */
  function CopyFiles(files: Files, from: Path, to: Path, o: CopyOutcome): Files
  {
    if from !in files then files
    else
      match o
      case CopySucceeds => files[to := files[from]]
      case CopyFails(_) => files
      case CopyFailsAfter(n, _) => files[to := Prefix(files[from], n)]
  }

  /** What `fs::copy` returns; `notFound` is the platform's text for a missing file. */
  function CopyResult(files: Files, from: Path, o: CopyOutcome, notFound: string): Result<(), IoError>
  {
    if from !in files then Err(NotFound(notFound))
    else
      match o
      case CopySucceeds => Ok(())
      case CopyFails(e) => Err(OtherError(e))
      case CopyFailsAfter(_, e) => Err(OtherError(e))
  }

  /**
   * A copy succeeds exactly when its source is there and the system lets it
   * finish, and then the target holds the source. It touches no other path,
   * and what a failed copy leaves in the target is a prefix of the source.
   */
  lemma CopyFacts(files: Files, from: Path, to: Path, o: CopyOutcome, notFound: string)
    ensures CopyResult(files, from, o, notFound).Ok? <==> from in files && o.CopySucceeds?
    ensures CopyResult(files, from, o, notFound) == Err(NotFound(notFound)) <== from !in files
    ensures CopyResult(files, from, o, notFound).Ok? ==>
      to in CopyFiles(files, from, to, o) && CopyFiles(files, from, to, o)[to] == files[from]
    ensures CopyResult(files, from, o, notFound).Err? && to in CopyFiles(files, from, to, o) ==>
      (to in files && CopyFiles(files, from, to, o)[to] == files[to]) || CopyFiles(files, from, to, o)[to] <= files[from]
    ensures forall p :: p != to ==>
      (p in CopyFiles(files, from, to, o) <==> p in files) &&
      (p in files ==> CopyFiles(files, from, to, o)[p] == files[p])
  {
  }

  /** What `fs::rename` and `fs::remove_file` return. */
  function OpResult(files: Files, p: Path, o: Outcome, notFound: string): Result<(), IoError>
  {
    if p !in files then Err(NotFound(notFound))
    else if o.Fails? then Err(OtherError(o.text))
    else Ok(())
  }

  /** `fs::rename`: unless it fails, the source's content moves to the target, replacing any file there. */
  function RenameFiles(files: Files, from: Path, to: Path, o: Outcome): Files
  {
    if from !in files || o.Fails? || from == to then files else (files - {from})[to := files[from]]
  }

  /** `fs::remove_file`: unless it fails, the file is gone. */
  function RemoveFiles(files: Files, p: Path, o: Outcome): Files
  {
    if p in files && o.Fails? then files else files - {p}
  }

  /**
   * The file system: what every path holds, and how this platform words a
   * missing-file error. Directories are not part of the map.
   */
  class FileSystem {
    var files: Files
    const notFoundText: string

    constructor (initial: Files, notFoundText: string)
      ensures files == initial && this.notFoundText == notFoundText
    {
      files := initial;
      this.notFoundText := notFoundText;
    }

    method Exists(p: Path) returns (b: bool)
      ensures b <==> p in files
    {
      b := p in files;
    }

    method Copy(from: Path, to: Path, o: CopyOutcome) returns (r: Result<(), IoError>)
      modifies this
      ensures files == CopyFiles(old(files), from, to, o)
      ensures r == CopyResult(old(files), from, o, notFoundText)
    {
      if from !in files {
        return Err(NotFound(notFoundText));
      }
      match o
      case CopySucceeds =>
        files := files[to := files[from]];
        r := Ok(());
      case CopyFails(e) =>
        r := Err(OtherError(e));
      case CopyFailsAfter(n, e) =>
        files := files[to := Prefix(files[from], n)];
        r := Err(OtherError(e));
    }

    method Rename(from: Path, to: Path, o: Outcome) returns (r: Result<(), IoError>)
      modifies this
      ensures files == RenameFiles(old(files), from, to, o)
      ensures r == OpResult(old(files), from, o, notFoundText)
    {
      if from !in files {
        return Err(NotFound(notFoundText));
      }
      if o.Fails? {
        return Err(OtherError(o.text));
      }
      if from != to {
        files := (files - {from})[to := files[from]];
      }
      r := Ok(());
    }

    method RemoveFile(p: Path, o: Outcome) returns (r: Result<(), IoError>)
      modifies this
      ensures files == RemoveFiles(old(files), p, o)
      ensures r == OpResult(old(files), p, o, notFoundText)
    {
      if p !in files {
        return Err(NotFound(notFoundText));
      }
      if o.Fails? {
        return Err(OtherError(o.text));
      }
      files := files - {p};
      r := Ok(());
    }
  }

  // ---------------------------------------------------------------------------
  // init: the daily backup at start-up
  //
  // `mkdir` is how creating the `backups` folder ends; when the folder is
  // already there, nothing is created and it is `Succeeds`.

  /** The files after `init`: with a live database and no backup for today, today's backup is its copy. */
  function InitFiles(files: Files, dir: Path, today: string, mkdir: Outcome, copy: CopyOutcome): Files
  {
    if DbPath(dir) !in files || mkdir.Fails? || DailyBackupPath(dir, today) in files then files
    else CopyFiles(files, DbPath(dir), DailyBackupPath(dir, today), copy)
  }

  /** What `init` returns: the error of creating the folder or of the copy, through `?`. */
  function InitResult(files: Files, dir: Path, today: string, mkdir: Outcome, copy: CopyOutcome, notFound: string)
    : Result<(), IoError>
  {
    if DbPath(dir) !in files then Ok(())
    else if mkdir.Fails? then Err(OtherError(mkdir.text))
    else if DailyBackupPath(dir, today) in files then Ok(())
    else CopyResult(files, DbPath(dir), copy, notFound)
  }

  /**
   * Without a live database nothing happens; an existing backup for today is
   * never touched; `init` succeeds exactly when there is no live database, or
   * the folder is there and either today's backup already is or the copy
   * completes, and then today's backup exists and, if it is new, is the live
   * database. A failed copy leaves at most a prefix of the live database.
   * Nothing else changes.
   */
  lemma InitOutcome(files: Files, dir: Path, today: string, mkdir: Outcome, copy: CopyOutcome, notFound: string)
    ensures DbPath(dir) !in files ==>
      InitFiles(files, dir, today, mkdir, copy) == files && InitResult(files, dir, today, mkdir, copy, notFound).Ok?
    ensures DailyBackupPath(dir, today) in files ==> InitFiles(files, dir, today, mkdir, copy) == files
    ensures InitResult(files, dir, today, mkdir, copy, notFound).Ok? <==>
      DbPath(dir) !in files || (mkdir.Succeeds? && (DailyBackupPath(dir, today) in files || copy.CopySucceeds?))
    ensures DbPath(dir) in files && InitResult(files, dir, today, mkdir, copy, notFound).Ok? ==>
      && DailyBackupPath(dir, today) in InitFiles(files, dir, today, mkdir, copy)
      && InitFiles(files, dir, today, mkdir, copy)[DailyBackupPath(dir, today)] ==
           if DailyBackupPath(dir, today) in files then files[DailyBackupPath(dir, today)] else files[DbPath(dir)]
    ensures DailyBackupPath(dir, today) !in files && DailyBackupPath(dir, today) in InitFiles(files, dir, today, mkdir, copy) ==>
      InitFiles(files, dir, today, mkdir, copy)[DailyBackupPath(dir, today)] <= files[DbPath(dir)]
    ensures forall p :: p != DailyBackupPath(dir, today) ==>
      (p in InitFiles(files, dir, today, mkdir, copy) <==> p in files) &&
      (p in files ==> InitFiles(files, dir, today, mkdir, copy)[p] == files[p])
  {
    CopyFacts(files, DbPath(dir), DailyBackupPath(dir, today), copy, notFound);
  }

  /** After a start that succeeded, a second start on the same day changes nothing, however it goes. */
  lemma InitIdempotent(files: Files, dir: Path, today: string, mkdir: Outcome, copy: CopyOutcome,
                       mkdir2: Outcome, copy2: CopyOutcome, notFound: string)
    requires InitResult(files, dir, today, mkdir, copy, notFound).Ok?
    ensures var once := InitFiles(files, dir, today, mkdir, copy);
      InitFiles(once, dir, today, mkdir2, copy2) == once
  {
    BackupPathsSeparate(dir, today, "");
  }

  /**
   * A copy that fails part-way leaves a truncated backup for today, and every
   * later start on the same day keeps it, since it only copies when no backup
   * for today exists.
   */
  lemma InitKeepsTruncatedBackup(files: Files, dir: Path, today: string, n: nat, e: string,
                                 mkdir2: Outcome, copy2: CopyOutcome)
    requires DbPath(dir) in files && DailyBackupPath(dir, today) !in files
    ensures var once := InitFiles(files, dir, today, Succeeds, CopyFailsAfter(n, e));
      && DailyBackupPath(dir, today) in once
      && once[DailyBackupPath(dir, today)] == Prefix(files[DbPath(dir)], n)
      && InitFiles(once, dir, today, mkdir2, copy2) == once
  {
    BackupPathsSeparate(dir, today, "");
  }

  /** The live database is never altered by the daily backup. */
  lemma InitKeepsDatabase(files: Files, dir: Path, today: string, mkdir: Outcome, copy: CopyOutcome)
    ensures DbPath(dir) in InitFiles(files, dir, today, mkdir, copy) <==> DbPath(dir) in files
    ensures DbPath(dir) in files ==> InitFiles(files, dir, today, mkdir, copy)[DbPath(dir)] == files[DbPath(dir)]
  {
    BackupPathsSeparate(dir, today, "");
  }

  /** `init`. */
  method Init(fs: FileSystem, dir: Path, today: string, mkdir: Outcome, copy: CopyOutcome)
    returns (r: Result<(), IoError>)
    modifies fs
    ensures fs.files == InitFiles(old(fs.files), dir, today, mkdir, copy)
    ensures r == InitResult(old(fs.files), dir, today, mkdir, copy, fs.notFoundText)
  {
    var dbExists := fs.Exists(DbPath(dir));
    if !dbExists {
      return Ok(());
    }
    if mkdir.Fails? {
      return Err(OtherError(mkdir.text));
    }
    var backupPath := DailyBackupPath(dir, today);
    var backupExists := fs.Exists(backupPath);
    if !backupExists {
      var copied := fs.Copy(DbPath(dir), backupPath, copy);
      if copied.Err? {
        return Err(copied.error);
      }
    }
    r := Ok(());
  }

  // ---------------------------------------------------------------------------
  // restore_backup

  const RestoreErrorPrefix := "Yedek geri yüklenirken hata oluştu: "

  /** How each of the four file operations of a restore ends. */
  datatype RestoreOutcomes = RestoreOutcomes(rename: Outcome, removeWal: Outcome, removeShm: Outcome, copy: CopyOutcome)

  /** The files once the live database has been set aside and its journals removed, before the copy. */
  function SetAside(files: Files, dir: Path, os: RestoreOutcomes): Files
  {
    var moved := if DbPath(dir) in files then RenameFiles(files, DbPath(dir), OldPath(dir), os.rename) else files;
    RemoveFiles(RemoveFiles(moved, WalPath(dir), os.removeWal), ShmPath(dir), os.removeShm)
  }

  /** The files after `restore_backup(src)`. */
  function RestoreFiles(files: Files, dir: Path, src: Path, os: RestoreOutcomes): Files
  {
    CopyFiles(SetAside(files, dir, os), src, DbPath(dir), os.copy)
  }

  /** The result of `restore_backup(src)`: the copy's error, prefixed; the other errors are ignored. */
  function RestoreResult(files: Files, dir: Path, src: Path, os: RestoreOutcomes, notFound: string): Result<(), string>
  {
    match CopyResult(SetAside(files, dir, os), src, os.copy, notFound)
    case Ok(_) => Ok(())
    case Err(e) => Err(RestoreErrorPrefix + e.text)
  }

  /**
   * Whatever happens: a journal is left exactly when it was there and its
   * removal failed, and then unchanged; a live database whose rename
   * succeeded is kept as `.old`; an `.old` file is replaced only by that
   * rename; every file outside the live files and `.old` is left alone.
   */
  lemma RestoreSetsAside(files: Files, dir: Path, src: Path, os: RestoreOutcomes)
    ensures var after := RestoreFiles(files, dir, src, os);
      && (WalPath(dir) in after <==> WalPath(dir) in files && os.removeWal.Fails?)
      && (WalPath(dir) in after ==> after[WalPath(dir)] == files[WalPath(dir)])
      && (ShmPath(dir) in after <==> ShmPath(dir) in files && os.removeShm.Fails?)
      && (ShmPath(dir) in after ==> after[ShmPath(dir)] == files[ShmPath(dir)])
    ensures DbPath(dir) in files && os.rename.Succeeds? ==>
      OldPath(dir) in RestoreFiles(files, dir, src, os) && RestoreFiles(files, dir, src, os)[OldPath(dir)] == files[DbPath(dir)]
    ensures (DbPath(dir) !in files || os.rename.Fails?) ==>
      (OldPath(dir) in RestoreFiles(files, dir, src, os) <==> OldPath(dir) in files) &&
      (OldPath(dir) in files ==> RestoreFiles(files, dir, src, os)[OldPath(dir)] == files[OldPath(dir)])
    ensures forall p :: !IsLiveFile(dir, p) && p != OldPath(dir) ==>
      (p in RestoreFiles(files, dir, src, os) <==> p in files) &&
      (p in files ==> RestoreFiles(files, dir, src, os)[p] == files[p])
  {
    LivePathsDistinct(dir);
  }

  /**
   * A chosen file that is none of the live files nor `.old` is restored
   * exactly when it exists and the copy completes, and the live database then
   * holds its content.
   */
  lemma RestoreSucceeds(files: Files, dir: Path, src: Path, os: RestoreOutcomes, notFound: string)
    requires !IsLiveFile(dir, src) && src != OldPath(dir)
    ensures RestoreResult(files, dir, src, os, notFound).Ok? <==> src in files && os.copy.CopySucceeds?
    ensures RestoreResult(files, dir, src, os, notFound).Ok? ==>
      DbPath(dir) in RestoreFiles(files, dir, src, os) && RestoreFiles(files, dir, src, os)[DbPath(dir)] == files[src]
  {
    LivePathsDistinct(dir);
  }

  /**
   * On failure the error is the copy's, prefixed. When the live database was
   * set aside (or there was none) and the copy wrote nothing, no live database
   * remains; a database whose rename succeeded survives as `.old`.
   */
  lemma RestoreFailureLeavesNoDatabase(files: Files, dir: Path, src: Path, os: RestoreOutcomes, notFound: string)
    requires RestoreResult(files, dir, src, os, notFound).Err?
    ensures src !in SetAside(files, dir, os) ==>
      RestoreResult(files, dir, src, os, notFound) == Err(RestoreErrorPrefix + notFound)
    ensures src in SetAside(files, dir, os) ==>
      !os.copy.CopySucceeds? && RestoreResult(files, dir, src, os, notFound) == Err(RestoreErrorPrefix + os.copy.text)
    ensures (DbPath(dir) !in files || os.rename.Succeeds?) && !os.copy.CopyFailsAfter? ==>
      DbPath(dir) !in RestoreFiles(files, dir, src, os)
    ensures DbPath(dir) in files && os.rename.Succeeds? ==>
      OldPath(dir) in RestoreFiles(files, dir, src, os) && RestoreFiles(files, dir, src, os)[OldPath(dir)] == files[DbPath(dir)]
  {
    LivePathsDistinct(dir);
  }

  /** A copy that fails part-way leaves a truncated live database: a prefix of the chosen file. */
  lemma RestoreFailureLeavesTruncatedDatabase(files: Files, dir: Path, src: Path, n: nat, e: string, os: RestoreOutcomes)
    requires !IsLiveFile(dir, src) && src != OldPath(dir) && src in files
    requires os.copy == CopyFailsAfter(n, e)
    ensures DbPath(dir) in RestoreFiles(files, dir, src, os)
    ensures RestoreFiles(files, dir, src, os)[DbPath(dir)] == Prefix(files[src], n)
    ensures RestoreFiles(files, dir, src, os)[DbPath(dir)] <= files[src]
  {
    LivePathsDistinct(dir);
  }

  /**
   * Because the rename's error is ignored, a rename that fails followed by a
   * copy that succeeds overwrites the live database in place: the restore
   * reports success and no `.old` copy of the previous database is made.
   */
  lemma RestoreOverwritesWhenRenameFails(files: Files, dir: Path, src: Path, e: string, os: RestoreOutcomes, notFound: string)
    requires !IsLiveFile(dir, src) && src != OldPath(dir) && src in files
    requires DbPath(dir) in files && OldPath(dir) !in files
    requires os.rename == Fails(e) && os.copy == CopySucceeds
    ensures RestoreResult(files, dir, src, os, notFound).Ok?
    ensures OldPath(dir) !in RestoreFiles(files, dir, src, os)
    ensures RestoreFiles(files, dir, src, os)[DbPath(dir)] == files[src]
  {
    LivePathsDistinct(dir);
  }

  /** Choosing the live database itself fails whenever its rename succeeds: it is gone before the copy. */
  lemma RestoreFromLiveDatabaseFails(files: Files, dir: Path, os: RestoreOutcomes, notFound: string)
    requires os.rename.Succeeds?
    ensures RestoreResult(files, dir, DbPath(dir), os, notFound) == Err(RestoreErrorPrefix + notFound)
  {
    LivePathsDistinct(dir);
  }

  /**
   * `restore_backup(src)`; `restarted` says whether `app.restart()` was
   * called, which happens exactly when the copy succeeded. The errors of the
   * rename and of the two removals are ignored.
   */
  method RestoreBackup(fs: FileSystem, dir: Path, src: Path, os: RestoreOutcomes) returns (r: Result<(), string>, restarted: bool)
    modifies fs
    ensures fs.files == RestoreFiles(old(fs.files), dir, src, os)
    ensures r == RestoreResult(old(fs.files), dir, src, os, fs.notFoundText)
    ensures restarted <==> r.Ok?
  {
    var dbPath := DbPath(dir);
    var dbExists := fs.Exists(dbPath);
    if dbExists {
      var renamed := fs.Rename(dbPath, OldPath(dir), os.rename);
    }
    var walRemoved := fs.RemoveFile(WalPath(dir), os.removeWal);
    var shmRemoved := fs.RemoveFile(ShmPath(dir), os.removeShm);
    var copied := fs.Copy(src, dbPath, os.copy);
    match copied
    case Ok(_) =>
      restarted := true;
      r := Ok(());
    case Err(e) =>
      restarted := false;
      r := Err(RestoreErrorPrefix + e.text);
  }

  // ---------------------------------------------------------------------------
  // create_manual_backup

  const NoDatabaseMessage := "Veritabanı bulunamadı."

  const BackupTakenPrefix := "Yedek başarıyla alındı: "

  const CopyErrorPrefix := "Kopyalama hatası: "

  /** The files after `create_manual_backup` at time `now`; `mkdir` is as for `init`. */
  function ManualFiles(files: Files, dir: Path, now: string, mkdir: Outcome, copy: CopyOutcome): Files
  {
    if DbPath(dir) !in files || mkdir.Fails? then files
    else CopyFiles(files, DbPath(dir), ManualBackupPath(dir, now), copy)
  }

  /** Its result: an error without a live database or when a step fails, otherwise a message naming the new file. */
  function ManualResult(files: Files, dir: Path, now: string, mkdir: Outcome, copy: CopyOutcome, notFound: string)
    : Result<string, string>
  {
    if DbPath(dir) !in files then Err(NoDatabaseMessage)
    else if mkdir.Fails? then Err(mkdir.text)
    else
      match CopyResult(files, DbPath(dir), copy, notFound)
      case Ok(_) => Ok(BackupTakenPrefix + ManualBackupName(now))
      case Err(e) => Err(CopyErrorPrefix + e.text)
  }

  /**
   * Without a live database the command fails and creates nothing; it
   * succeeds exactly when there is one and both the folder and the copy
   * succeed, and then the new backup holds the live database and the message
   * ends with its file name. A failure says which step failed. Every other
   * file, the live database included, is unchanged.
   */
  lemma ManualBackupOutcome(files: Files, dir: Path, now: string, mkdir: Outcome, copy: CopyOutcome, notFound: string)
    ensures DbPath(dir) !in files ==>
      && ManualResult(files, dir, now, mkdir, copy, notFound) == Err("Veritabanı bulunamadı.")
      && ManualFiles(files, dir, now, mkdir, copy) == files
    ensures ManualResult(files, dir, now, mkdir, copy, notFound).Ok? <==>
      DbPath(dir) in files && mkdir.Succeeds? && copy.CopySucceeds?
    ensures ManualResult(files, dir, now, mkdir, copy, notFound).Ok? ==>
      && ManualResult(files, dir, now, mkdir, copy, notFound).value[|BackupTakenPrefix|..] == "manuel-" + now + ".db"
      && ManualBackupPath(dir, now) in ManualFiles(files, dir, now, mkdir, copy)
      && ManualFiles(files, dir, now, mkdir, copy)[ManualBackupPath(dir, now)] == files[DbPath(dir)]
    ensures DbPath(dir) in files && mkdir.Fails? ==>
      ManualResult(files, dir, now, mkdir, copy, notFound) == Err(mkdir.text) && ManualFiles(files, dir, now, mkdir, copy) == files
    ensures DbPath(dir) in files && mkdir.Succeeds? && !copy.CopySucceeds? ==>
      ManualResult(files, dir, now, mkdir, copy, notFound) == Err("Kopyalama hatası: " + copy.text)
    ensures forall p :: p != ManualBackupPath(dir, now) ==>
      (p in ManualFiles(files, dir, now, mkdir, copy) <==> p in files) &&
      (p in files ==> ManualFiles(files, dir, now, mkdir, copy)[p] == files[p])
  {
    BackupPathsSeparate(dir, "", now);
  }

  /** Two manual backups at different times that both succeed both survive, each a copy of the live database. */
  lemma ManualBackupsAccumulate(files: Files, dir: Path, now1: string, now2: string)
    requires DbPath(dir) in files && now1 != now2
    ensures var after := ManualFiles(ManualFiles(files, dir, now1, Succeeds, CopySucceeds), dir, now2, Succeeds, CopySucceeds);
      && ManualBackupPath(dir, now1) in after && after[ManualBackupPath(dir, now1)] == files[DbPath(dir)]
      && ManualBackupPath(dir, now2) in after && after[ManualBackupPath(dir, now2)] == files[DbPath(dir)]
  {
    ManualBackupPathsDistinct(dir, now1, now2);
    BackupPathsSeparate(dir, "", now1);
  }

  /** `create_manual_backup`. */
  method CreateManualBackup(fs: FileSystem, dir: Path, now: string, mkdir: Outcome, copy: CopyOutcome)
    returns (r: Result<string, string>)
    modifies fs
    ensures fs.files == ManualFiles(old(fs.files), dir, now, mkdir, copy)
    ensures r == ManualResult(old(fs.files), dir, now, mkdir, copy, fs.notFoundText)
  {
    var dbExists := fs.Exists(DbPath(dir));
    if !dbExists {
      return Err(NoDatabaseMessage);
    }
    if mkdir.Fails? {
      return Err(mkdir.text);
    }
    var filename := ManualBackupName(now);
    var copied := fs.Copy(DbPath(dir), Join(Join(dir, "manualbackups"), filename), copy);
    if copied.Err? {
      return Err(CopyErrorPrefix + copied.error.text);
    }
    r := Ok(BackupTakenPrefix + filename);
  }
}
