/**
 * Database backups (backend/app/services/backup_service.py): naming,
 * the salt-then-ciphertext layout of encrypted files, the listing of the
 * backup directory, deletion, pruning to the seven newest automatic
 * backups, and the choice of restore tool.
 *
 * The backup directory is a sequence of files in the order a directory
 * scan returns them. pg_dump, PBKDF2 and Fernet are parameters: the dump
 * output, the salt drawn by the operating system and the sealing and
 * opening functions of the cipher.
 */
module Backups {
  import opened Common

  const SaltLength: nat := 16
  /** How many automatic backups pruning keeps. */
  const AutoKept: nat := 7

  // ---------------------------------------------------------------------
  // Names
  // ---------------------------------------------------------------------

  /** The moment `datetime.now()` returns. */
  datatype Moment = Moment(year: nat, month: nat, day: nat, hour: nat, minute: nat, second: nat)

  /** A number written in decimal, padded with zeros to `width`. */
  function Padded(n: nat, width: nat): (r: string)
    ensures |r| >= width && AllDigits(r) && '.' !in r
  {
    var d := NatToString(n);
    var r := PadLeft(d, width, '0');
    assert forall i :: 0 <= i < |r| ==> IsDigit(r[i]) by {
      forall i | 0 <= i < |r|
        ensures IsDigit(r[i])
      {
        if i >= |r| - |d| {
          assert r[i] == r[|r| - |d|..][i - (|r| - |d|)];
        }
      }
    }
    r
  }

  /** `strftime("%Y%m%d_%H%M%S")`. */
  function Timestamp(m: Moment): (r: string)
    ensures '.' !in r
  {
    var date := Padded(m.year, 4) + Padded(m.month, 2) + Padded(m.day, 2);
    var time := Padded(m.hour, 2) + Padded(m.minute, 2) + Padded(m.second, 2);
    assert '.' !in date && '.' !in time;
    date + "_" + time
  }

  function Prefix(auto: bool): string
  {
    if auto then "auto_backup" else "manual_backup"
  }

  /** "dump" only for the custom format; anything else is a plain SQL script. */
  function Extension(format: string): (r: string)
    ensures r == "dump" <==> format == "dump"
  {
    if format == "dump" then "dump" else "sql"
  }

  /** The name before the extension. */
  function Stem(auto: bool, m: Moment): (r: string)
    ensures '.' !in r
  {
    Prefix(auto) + "_" + Timestamp(m)
  }

  /** `{prefix}_{timestamp}.{ext}`. */
  function BackupName(auto: bool, m: Moment, format: string): (r: string)
    ensures r == Stem(auto, m) + "." + Extension(format)
    ensures StartsWith(r, "auto_") <==> auto
    ensures EndsWith(r, ".dump") <==> format == "dump"
    ensures EndsWith(r, ".sql") <==> format != "dump"
  {
    PrefixShape(auto, Timestamp(m) + "." + Extension(format));
    ExtensionShape(Stem(auto, m), Extension(format));
    assert Stem(auto, m) + "." + Extension(format) == Prefix(auto) + "_" + (Timestamp(m) + "." + Extension(format));
    Stem(auto, m) + "." + Extension(format)
  }

  lemma PrefixShape(auto: bool, rest: string)
    ensures StartsWith(Prefix(auto) + "_" + rest, "auto_") <==> auto
  {
    var r := Prefix(auto) + "_" + rest;
    if auto {
      assert r[..5] == "auto_";
    } else {
      assert r[..5][0] == 'm';
    }
  }

  lemma ExtensionShape(stem: string, ext: string)
    requires ext == "dump" || ext == "sql"
    ensures EndsWith(stem + "." + ext, ".dump") <==> ext == "dump"
    ensures EndsWith(stem + "." + ext, ".sql") <==> ext == "sql"
  {
    var r := stem + "." + ext;
    if ext == "dump" {
      assert r[|r| - 5..] == ".dump";
      assert r[|r| - 4..][0] == 'd';
    } else {
      assert r[|r| - 4..] == ".sql";
      if |r| >= 5 {
        assert r[|r| - 5..][4] == 'l';
      }
    }
  }

  // ---------------------------------------------------------------------
  // Python's str.replace
  // ---------------------------------------------------------------------

  /** Every non-overlapping occurrence of `pat`, scanning left to right, replaced by `by`. */
  function ReplaceAll(s: string, pat: string, rep: string): string
    requires pat != []
    decreases |s|
  {
    if |s| < |pat| then s
    else if s[..|pat|] == pat then rep + ReplaceAll(s[|pat|..], pat, rep)
    else [s[0]] + ReplaceAll(s[1..], pat, rep)
  }

  /** A pattern that starts with '.' never matches inside a dot-free prefix. */
  lemma {:induction false} ReplaceSkipsDotless(w: string, t: string, pat: string, rep: string)
    requires pat != [] && pat[0] == '.' && '.' !in w
    ensures ReplaceAll(w + t, pat, rep) == w + ReplaceAll(t, pat, rep)
  {
    if w != [] {
      var s := w + t;
      assert s[0] == w[0] != '.';
      assert s[1..] == w[1..] + t;
      ReplaceSkipsDotless(w[1..], t, pat, rep);
      if |s| >= |pat| {
        assert s[..|pat|][0] != pat[0];
        calc {
          ReplaceAll(s, pat, rep);
          [s[0]] + ReplaceAll(s[1..], pat, rep);
          [w[0]] + (w[1..] + ReplaceAll(t, pat, rep));
          { assert w == [w[0]] + w[1..]; }
          w + ReplaceAll(t, pat, rep);
        }
      } else {
        assert ReplaceAll(t, pat, rep) == t;
      }
    } else {
      assert w + t == t;
    }
  }

  lemma ReplaceWhole(pat: string, rep: string)
    requires pat != []
    ensures ReplaceAll(pat, pat, rep) == rep
  {
    assert pat[|pat|..] == [];
  }

  // ---------------------------------------------------------------------
  // Encrypted files
  // ---------------------------------------------------------------------

  /** The encrypted backup's name: ".{ext}" replaced by ".enc". */
  function EncryptedName(name: string, ext: string): string
  {
    ReplaceAll(name, "." + ext, ".enc")
  }

  lemma EncryptedBackupName(auto: bool, m: Moment, format: string)
    ensures EncryptedName(BackupName(auto, m, format), Extension(format)) == Stem(auto, m) + ".enc"
  {
    var ext := "." + Extension(format);
    assert BackupName(auto, m, format) == Stem(auto, m) + ext;
    ReplaceSkipsDotless(Stem(auto, m), ext, ext, ".enc");
    ReplaceWhole(ext, ".enc");
  }

  /** The file written: the salt, then the ciphertext. */
  function Sealed(salt: seq<bv8>, ciphertext: seq<bv8>): seq<bv8>
  {
    salt + ciphertext
  }

  /** `file_content[:16]`. */
  function SaltOf(content: seq<bv8>): (r: seq<bv8>)
    ensures |r| == if |content| < SaltLength then |content| else SaltLength
  {
    if |content| < SaltLength then content else content[..SaltLength]
  }

  /** `file_content[16:]`. */
  function CiphertextOf(content: seq<bv8>): (r: seq<bv8>)
    ensures SaltOf(content) + r == content
  {
    if |content| < SaltLength then [] else content[SaltLength..]
  }

  /** A 16-byte salt and the ciphertext come back apart as they went in. */
  lemma SealedSplits(salt: seq<bv8>, ciphertext: seq<bv8>)
    requires |salt| == SaltLength
    ensures SaltOf(Sealed(salt, ciphertext)) == salt
    ensures CiphertextOf(Sealed(salt, ciphertext)) == ciphertext
  {
    assert Sealed(salt, ciphertext)[..SaltLength] == salt;
  }

  /** The temporary path of a decrypted file: ".enc" replaced by ".dump" for "*.dump.enc", else by ".sql". */
  function DecryptedPath(path: string): string
  {
    ReplaceAll(path, ".enc", if EndsWith(path, ".dump.enc") then ".dump" else ".sql")
  }

  /**
   * `decrypt_backup_file`. `content` is the file (None when it is absent);
   * `open(salt, ciphertext)` stands for Fernet with the key derived from the
   * password and that salt, None when the token does not authenticate.
   */
  function Decrypt(path: string, content: Option<seq<bv8>>, open: (seq<bv8>, seq<bv8>) -> Option<seq<bv8>>): (r: Result<(string, seq<bv8>)>)
    ensures content.None? ==> r == Err(0, "File not found")
    ensures content.Some? ==>
      (r.Ok? <==> open(SaltOf(content.value), CiphertextOf(content.value)).Some?)
    ensures r.Ok? ==>
      r.value.0 == DecryptedPath(path) && Some(r.value.1) == open(SaltOf(content.value), CiphertextOf(content.value))
  {
    if content.None? then Err(0, "File not found")
    else
      match open(SaltOf(content.value), CiphertextOf(content.value))
      case None => Err(0, "Invalid password or corrupted file")
      case Some(data) => Ok((DecryptedPath(path), data))
  }

  /** What was sealed with a salt decrypts to the original data, given a cipher whose opening undoes its sealing. */
  lemma EncryptDecryptRoundTrip(path: string, salt: seq<bv8>, data: seq<bv8>,
                                seal: (seq<bv8>, seq<bv8>) -> seq<bv8>, open: (seq<bv8>, seq<bv8>) -> Option<seq<bv8>>)
    requires |salt| == SaltLength
    requires open(salt, seal(salt, data)) == Some(data)
    ensures Decrypt(path, Some(Sealed(salt, seal(salt, data))), open) == Ok((DecryptedPath(path), data))
  {
    SealedSplits(salt, seal(salt, data));
  }

  // ---------------------------------------------------------------------
  // Restore
  // ---------------------------------------------------------------------

  /** pg_restore for a custom-format dump, psql for a script. */
  predicate IsBinary(path: string, format: string)
  {
    EndsWith(path, ".dump") || format == "dump"
  }

  /** A non-zero exit fails the restore only when the tool's error output mentions "fatal" or "error". */
  function RestoreOutcome(returnCode: int, stderr: string): (r: Result<bool>)
    ensures r.Ok? <==> returnCode == 0 || !(ContainsIgnoringCase(stderr, "fatal") || ContainsIgnoringCase(stderr, "error"))
    ensures r.Ok? ==> r.value
  {
    if returnCode != 0 && (ContainsIgnoringCase(stderr, "fatal") || ContainsIgnoringCase(stderr, "error")) then
      Err(0, "Restore failed: " + stderr)
    else Ok(true)
  }

  /** The name the import endpoint stores an upload under before decrypting it. */
  function UploadPath(filename: string): string
  {
    "temp_upload_" + filename
  }

  lemma DotlessUpload(w: string)
    requires '.' !in w
    ensures '.' !in "temp_upload_" + w
  {
  }

  /** Replacing the ".enc" that ends a dot-free name. */
  lemma ReplaceFinalEnc(w: string, e: string)
    requires '.' !in w
    ensures ReplaceAll(w + ".enc", ".enc", e) == w + e
  {
    ReplaceSkipsDotless(w, ".enc", ".enc", e);
    ReplaceWhole(".enc", e);
  }

  lemma NotDumpEnc(w: string)
    requires '.' !in w
    ensures !EndsWith(w + ".enc", ".dump.enc")
  {
    var p := w + ".enc";
    if |p| >= 9 {
      assert p[|p| - 9..][0] == p[|p| - 9] == w[|w| - 5];
    }
  }

  /** "*.enc" with a dot-free stem decrypts to "*.sql". */
  lemma DecryptedPlainName(w: string)
    requires '.' !in w
    ensures DecryptedPath(w + ".enc") == w + ".sql"
  {
    NotDumpEnc(w);
    ReplaceFinalEnc(w, ".sql");
  }

  /** One step of the scan where the pattern does not start at the first character. */
  lemma ReplaceNoMatchHere(s: string, pat: string, rep: string)
    requires pat != [] && |s| >= |pat| && s[..|pat|] != pat
    ensures ReplaceAll(s, pat, rep) == [s[0]] + ReplaceAll(s[1..], pat, rep)
  {
  }

  lemma DumpEncLiteral(s: string)
    requires s == ".dump.enc"
    ensures ReplaceAll(s, ".enc", ".dump") == ".dump.dump"
  {
    assert s[..4][1] == 'd';
    ReplaceNoMatchHere(s, ".enc", ".dump");
    assert s[1..] == "dump" + ".enc";
    ReplaceFinalEnc("dump", ".dump");
    assert [s[0]] + ("dump" + ".dump") == ".dump.dump";
  }

  lemma SqlEncLiteral(s: string)
    requires s == ".sql.enc"
    ensures ReplaceAll(s, ".enc", ".sql") == ".sql.sql"
  {
    assert s[..4][1] == 's';
    ReplaceNoMatchHere(s, ".enc", ".sql");
    assert s[1..] == "sql" + ".enc";
    ReplaceFinalEnc("sql", ".sql");
    assert [s[0]] + ("sql" + ".sql") == ".sql.sql";
  }

  /** "*.dump.enc" with a dot-free stem decrypts to "*.dump.dump". */
  lemma DecryptedDumpName(w: string)
    requires '.' !in w
    ensures DecryptedPath(w + ".dump.enc") == w + ".dump.dump"
  {
    var p := w + ".dump.enc";
    assert p[|p| - 9..] == ".dump.enc";
    ReplaceSkipsDotless(w, ".dump.enc", ".enc", ".dump");
    DumpEncLiteral(".dump.enc");
  }

  /** "*.sql.enc" with a dot-free stem decrypts to "*.sql.sql". */
  lemma DecryptedSqlName(w: string)
    requires '.' !in w
    ensures DecryptedPath(w + ".sql.enc") == w + ".sql.sql"
  {
    var p := w + ".sql.enc";
    if |p| >= 9 {
      assert p[|p| - 9..][1] == p[|p| - 8] == '.';
    }
    ReplaceSkipsDotless(w, ".sql.enc", ".enc", ".sql");
    SqlEncLiteral(".sql.enc");
  }

  lemma NotDumpSuffix(w: string, tail: string)
    requires |tail| >= 1 && tail[|tail| - 1] != 'p'
    ensures !EndsWith(w + tail, ".dump")
  {
    var d := w + tail;
    if |d| >= 5 {
      assert d[|d| - 5..][4] == d[|d| - 1];
    }
  }

  /**
   * An encrypted custom-format backup is named "*.enc" with the ".dump"
   * gone, so decryption names it "*.sql", and the import (which passes no
   * format) restores a binary dump with psql.
   */
  lemma EncryptedDumpRestoredAsScript(auto: bool, m: Moment)
    ensures var enc := EncryptedName(BackupName(auto, m, "dump"), Extension("dump"));
      DecryptedPath(UploadPath(enc)) == UploadPath(Stem(auto, m)) + ".sql"
      && !IsBinary(DecryptedPath(UploadPath(enc)), "sql")
  {
    EncryptedBackupName(auto, m, "dump");
    var w := UploadPath(Stem(auto, m));
    DotlessUpload(Stem(auto, m));
    assert UploadPath(Stem(auto, m) + ".enc") == w + ".enc";
    DecryptedPlainName(w);
    NotDumpSuffix(w, ".sql");
  }

  /** The encrypted name that keeps the original extension: "*.dump.enc" or "*.sql.enc". */
  function EncryptedNameKeepingExt(name: string): string
  {
    name + ".enc"
  }

  lemma UploadOfKept(auto: bool, m: Moment, format: string)
    ensures UploadPath(EncryptedNameKeepingExt(BackupName(auto, m, format)))
      == UploadPath(Stem(auto, m)) + (if format == "dump" then ".dump.enc" else ".sql.enc")
  {
    var tail := if format == "dump" then ".dump.enc" else ".sql.enc";
    assert "." + Extension(format) + ".enc" == tail;
    KeptUploadForStem(Stem(auto, m), Extension(format));
  }

  lemma KeptUploadForStem(stem: string, ext: string)
    ensures UploadPath(EncryptedNameKeepingExt(stem + "." + ext)) == UploadPath(stem) + ("." + ext + ".enc")
  {
  }

  /** With the extension kept, the decrypted upload is restored with the tool its format needs. */
  lemma KeptExtensionRestoresRightTool(auto: bool, m: Moment, format: string)
    ensures var enc := EncryptedNameKeepingExt(BackupName(auto, m, format));
      IsBinary(DecryptedPath(UploadPath(enc)), "sql") <==> format == "dump"
  {
    KeptRestoresForStem(Stem(auto, m), format);
  }

  lemma KeptRestoresForStem(stem: string, format: string)
    requires '.' !in stem
    ensures var enc := EncryptedNameKeepingExt(stem + "." + Extension(format));
      IsBinary(DecryptedPath(UploadPath(enc)), "sql") <==> format == "dump"
  {
    var w := UploadPath(stem);
    DotlessUpload(stem);
    var name := stem + "." + Extension(format);
    if format == "dump" {
      assert UploadPath(EncryptedNameKeepingExt(name)) == w + ".dump.enc";
      DecryptedDumpName(w);
      var d := w + ".dump.dump";
      assert d[|d| - 5..] == ".dump";
    } else {
      assert UploadPath(EncryptedNameKeepingExt(name)) == w + ".sql.enc";
      DecryptedSqlName(w);
      NotDumpSuffix(w, ".sql.sql");
    }
  }

  // ---------------------------------------------------------------------
  // The backup directory
  // ---------------------------------------------------------------------

  datatype StoredFile = StoredFile(name: string, data: seq<bv8>, ctime: int)

  /** An entry of `list_backups`. */
  datatype Listed = Listed(filename: string, size: nat, createdAt: int, isEncrypted: bool)

  predicate IsBackupFile(f: StoredFile)
  {
    EndsWith(f.name, ".sql") || EndsWith(f.name, ".enc") || EndsWith(f.name, ".dump")
  }

  function Entry(f: StoredFile): Listed
  {
    Listed(f.name, |f.data|, f.ctime, EndsWith(f.name, ".enc"))
  }

  /** The entries of the backup files, in directory order. */
  function Entries(fs: seq<StoredFile>): (r: seq<Listed>)
    ensures forall e :: e in r <==> exists f :: f in fs && IsBackupFile(f) && e == Entry(f)
  {
    if fs == [] then []
    else
      var last := fs[|fs| - 1];
      var init := Entries(fs[..|fs| - 1]);
      assert forall f :: f in fs <==> f in fs[..|fs| - 1] || f == last;
      if IsBackupFile(last) then init + [Entry(last)] else init
  }

  function NewestFirstKey(e: Listed): int
  {
    -e.createdAt
  }

  /** `list_backups`: the .sql, .enc and .dump files, newest first. */
  function Listing(fs: seq<StoredFile>): (r: seq<Listed>)
    ensures multiset(r) == multiset(Entries(fs))
    ensures forall i, j :: 0 <= i < j < |r| ==> r[i].createdAt >= r[j].createdAt
  {
    var r := SortByKey(Entries(fs), NewestFirstKey);
    assert forall i, j :: 0 <= i < j < |r| ==> NewestFirstKey(r[i]) <= NewestFirstKey(r[j]);
    r
  }

  lemma ListingEntries(fs: seq<StoredFile>, e: Listed)
    ensures e in Listing(fs) <==> exists f :: f in fs && IsBackupFile(f) && e == Entry(f)
    ensures e in Listing(fs) ==> (e.isEncrypted <==> EndsWith(e.filename, ".enc"))
  {
    assert e in Listing(fs) <==> e in multiset(Listing(fs));
    assert e in Entries(fs) <==> e in multiset(Entries(fs));
  }

  function Names(fs: seq<StoredFile>): set<string>
  {
    set f | f in fs :: f.name
  }

  predicate NamesUnique(fs: seq<StoredFile>)
  {
    forall i, j :: 0 <= i < j < |fs| ==> fs[i].name != fs[j].name
  }

  /** The directory without the files named in `names`. */
  function Without(fs: seq<StoredFile>, names: set<string>): (r: seq<StoredFile>)
    ensures forall f :: f in r <==> f in fs && f.name !in names
    ensures NamesUnique(fs) ==> NamesUnique(r)
  {
    if fs == [] then []
    else
      var last := fs[|fs| - 1];
      var init := Without(fs[..|fs| - 1], names);
      assert forall f :: f in fs <==> f in fs[..|fs| - 1] || f == last;
      if last.name in names then init
      else
        assert NamesUnique(fs) ==> forall f :: f in fs[..|fs| - 1] ==> f.name != last.name;
        init + [last]
  }

  lemma {:induction false} WithoutTwice(fs: seq<StoredFile>, a: set<string>, b: set<string>)
    ensures Without(Without(fs, a), b) == Without(fs, a + b)
  {
    if fs != [] {
      WithoutTwice(fs[..|fs| - 1], a, b);
      var last := fs[|fs| - 1];
      var w := Without(fs[..|fs| - 1], a);
      if last.name !in a {
        assert (w + [last])[..|w|] == w;
      }
    }
  }

  /** Write a file: it replaces one of the same name, or is added at the end. */
  function Put(fs: seq<StoredFile>, f: StoredFile): (r: seq<StoredFile>)
    ensures NamesUnique(fs) ==> NamesUnique(r)
    ensures f in r && Names(r) == Names(fs) + {f.name}
    ensures forall g :: g in r ==> g == f || (g in fs && g.name != f.name)
  {
    var r := Without(fs, {f.name}) + [f];
    assert forall g :: g in r <==> g == f || (g in fs && g.name != f.name);
    assert forall n :: n in Names(r) <==> n in Names(fs) + {f.name} by {
      forall n | n in Names(fs) + {f.name}
        ensures n in Names(r)
      {
        if n != f.name {
          var g :| g in fs && g.name == n;
          assert g in r;
        }
      }
    }
    r
  }

  predicate IsAuto(e: Listed)
  {
    StartsWith(e.filename, "auto_")
  }

  /** The automatic backups of a listing, in listing order. */
  function AutoEntries(l: seq<Listed>): (r: seq<Listed>)
    ensures forall e :: e in r <==> e in l && IsAuto(e)
  {
    if l == [] then []
    else
      var init := AutoEntries(l[..|l| - 1]);
      assert forall e :: e in l <==> e in l[..|l| - 1] || e == l[|l| - 1];
      if IsAuto(l[|l| - 1]) then init + [l[|l| - 1]] else init
  }

  lemma {:induction false} AutoEntriesKeepOrder(l: seq<Listed>)
    requires forall i, j :: 0 <= i < j < |l| ==> l[i].createdAt >= l[j].createdAt
    ensures forall i, j :: 0 <= i < j < |AutoEntries(l)| ==> AutoEntries(l)[i].createdAt >= AutoEntries(l)[j].createdAt
  {
    if l != [] {
      AutoEntriesKeepOrder(l[..|l| - 1]);
      var init := AutoEntries(l[..|l| - 1]);
      forall e | e in init
        ensures e.createdAt >= l[|l| - 1].createdAt
      {
        var k :| 0 <= k < |l| - 1 && l[k] == e;
      }
    }
  }

  /** The automatic backups pruning deletes: all but the first seven of the newest-first listing. */
  function Victims(fs: seq<StoredFile>): (r: seq<Listed>)
    ensures |r| == if |AutoEntries(Listing(fs))| > AutoKept then |AutoEntries(Listing(fs))| - AutoKept else 0
  {
    var autos := AutoEntries(Listing(fs));
    if |autos| > AutoKept then autos[AutoKept..] else []
  }

  function FileNames(l: seq<Listed>): (r: set<string>)
    ensures forall n :: n in r <==> exists e :: e in l && e.filename == n
  {
    if l == [] then {}
    else
      assert forall e :: e in l <==> e in l[..|l| - 1] || e == l[|l| - 1];
      FileNames(l[..|l| - 1]) + {l[|l| - 1].filename}
  }

  lemma FileNamesSnoc(l: seq<Listed>, i: int)
    requires 0 <= i < |l|
    ensures FileNames(l[..i + 1]) == FileNames(l[..i]) + {l[i].filename}
  {
    assert l[..i + 1][..i] == l[..i];
  }

  function VictimNames(fs: seq<StoredFile>): set<string>
  {
    FileNames(Victims(fs))
  }

  /** Every victim is an automatic backup no newer than any of the seven kept. */
  lemma VictimsAreOldestAutos(fs: seq<StoredFile>, v: Listed, kept: Listed)
    requires v in Victims(fs)
    requires kept in AutoEntries(Listing(fs))[..if |AutoEntries(Listing(fs))| < AutoKept then |AutoEntries(Listing(fs))| else AutoKept]
    ensures IsAuto(v) && StartsWith(v.filename, "auto_")
    ensures v.createdAt <= kept.createdAt
  {
    var autos := AutoEntries(Listing(fs));
    AutoEntriesKeepOrder(Listing(fs));
    var i :| 0 <= i < |autos| - AutoKept && autos[AutoKept..][i] == v;
    var j :| 0 <= j < AutoKept && autos[j] == kept;
    assert autos[AutoKept + i] == v;
  }

  /** Pruning never deletes a file whose name does not start with "auto_". */
  lemma PruneSparesManual(fs: seq<StoredFile>, f: StoredFile)
    requires f in fs && !StartsWith(f.name, "auto_")
    ensures f in Without(fs, VictimNames(fs))
  {
    forall v | v in Victims(fs)
      ensures IsAuto(v)
    {
      assert v in AutoEntries(Listing(fs));
    }
  }

  class BackupStore {
    var files: seq<StoredFile>

    ghost predicate Valid()
      reads this
    {
      NamesUnique(files)
    }

    constructor(existing: seq<StoredFile>)
      requires NamesUnique(existing)
      ensures Valid() && files == existing
    {
      files := existing;
    }

    /** `list_backups`. */
    function List(): (r: seq<Listed>)
      reads this
      ensures multiset(r) == multiset(Entries(files))
      ensures forall i, j :: 0 <= i < j < |r| ==> r[i].createdAt >= r[j].createdAt
    {
      Listing(files)
    }

    /** `delete_backup`: False, and nothing changes, when no file has that name. */
    method Delete(filename: string) returns (deleted: bool)
      requires Valid()
      modifies this
      ensures Valid()
      ensures deleted <==> filename in Names(old(files))
      ensures files == Without(old(files), {filename})
      ensures !deleted ==> files == old(files)
    {
      deleted := exists f :: f in files && f.name == filename;
      if !deleted {
        NothingToRemove(files, filename);
      }
      files := Without(files, {filename});
    }

    /** `prune_backups`: delete every automatic backup after the seventh newest. */
    method Prune()
      requires Valid()
      modifies this
      ensures Valid()
      ensures files == Without(old(files), VictimNames(old(files)))
    {
      var backups := List();
      var autos := AutoEntries(backups);
      if |autos| > AutoKept {
        DeleteEach(autos[AutoKept..]);
      } else {
        NothingToRemoveAll(files);
      }
    }

    /** The `os.remove` loop of `prune_backups`, one victim after another. */
    method DeleteEach(doomed: seq<Listed>)
      requires Valid()
      modifies this
      ensures Valid()
      ensures files == Without(old(files), FileNames(doomed))
    {
      ghost var start := files;
      NothingToRemoveAll(files);
      for i := 0 to |doomed|
        invariant Valid()
        invariant files == Without(start, FileNames(doomed[..i]))
      {
        var _ := Delete(doomed[i].filename);
        WithoutTwice(start, FileNames(doomed[..i]), {doomed[i].filename});
        FileNamesSnoc(doomed, i);
      }
      assert doomed[..|doomed|] == doomed;
    }

    /**
     * `create_backup`. `dump` is what pg_dump wrote (None when it failed),
     * `salt` the 16 random bytes and `seal(salt, data)` the Fernet token.
     * Returns the name of the new backup, or None.
     */
    method Create(auto: bool, password: Option<string>, format: string, now: Moment, ctime: int,
                  dump: Option<seq<bv8>>, salt: seq<bv8>, seal: (seq<bv8>, seq<bv8>) -> seq<bv8>)
      returns (r: Option<string>)
      requires Valid() && |salt| == SaltLength
      modifies this
      ensures Valid()
      ensures dump.None? ==> r.None? && files == old(files)
      ensures dump.Some? && dump.value == [] ==>
        r.None? && files == Put(old(files), StoredFile(BackupName(auto, now, format), [], ctime))
      ensures dump.Some? && dump.value != [] ==>
        var name := BackupName(auto, now, format);
        var encrypt := password.Some? && password.value != "";
        var written :=
          if encrypt then
            Without(Put(Put(old(files), StoredFile(name, dump.value, ctime)),
                        StoredFile(Stem(auto, now) + ".enc", Sealed(salt, seal(salt, dump.value)), ctime)), {name})
          else Put(old(files), StoredFile(name, dump.value, ctime));
        r == Some(if encrypt then Stem(auto, now) + ".enc" else name)
        && files == if auto then Without(written, VictimNames(written)) else written
    {
      if dump.None? {
        return None;
      }
      var name := BackupName(auto, now, format);
      var ext := Extension(format);
      files := Put(files, StoredFile(name, dump.value, ctime));
      if dump.value == [] {
        return None;
      }
      if password.Some? && password.value != "" {
        var encName := EncryptedName(name, ext);
        EncryptedBackupName(auto, now, format);
        var sealedFile := StoredFile(encName, Sealed(salt, seal(salt, dump.value)), ctime);
        EncryptedNameIsNew(files, name, encName);
        files := Put(files, sealedFile);
        var _ := Delete(name);
        if auto {
          Prune();
        }
        return Some(encName);
      }
      if auto {
        Prune();
      }
      return Some(name);
    }
  }

  lemma NothingToRemove(fs: seq<StoredFile>, n: string)
    requires !exists f :: f in fs && f.name == n
    ensures Without(fs, {n}) == fs
  {
    forall i | 0 <= i < |fs|
      ensures fs[i].name != n
    {
      assert fs[i] in fs;
    }
    NothingToRemoveAny(fs, {n});
  }

  lemma NothingToRemoveAll(fs: seq<StoredFile>)
    ensures Without(fs, {}) == fs
  {
    NothingToRemoveAny(fs, {});
  }

  lemma {:induction false} NothingToRemoveAny(fs: seq<StoredFile>, names: set<string>)
    requires forall i :: 0 <= i < |fs| ==> fs[i].name !in names
    ensures Without(fs, names) == fs
  {
    if fs != [] {
      var init, last := fs[..|fs| - 1], fs[|fs| - 1];
      NothingToRemoveAny(init, names);
      assert Without(fs, names) == init + [last];
      InitLast(fs);
    }
  }

  lemma EncryptedNameIsNew(fs: seq<StoredFile>, name: string, encName: string)
    requires EndsWith(name, ".sql") || EndsWith(name, ".dump")
    requires EndsWith(encName, ".enc")
    ensures name != encName
  {
  }

}
