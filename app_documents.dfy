/**
 * `App.saveDocument` (`app.go`): the signed XML and the RIDE of an invoice are
 * filed under the configured storage folder as
 * `<StoragePath>/<year>/<month>/FACTURA-<secuencial>.<type>`.
 *
 * The file system is a `FileSystem` object whose directories and files the
 * method changes; its failures are parameters.
 */
module Documents {
  import opened Wrappers
  import opened Text
  import opened Dates
  import opened Records
  import opened Strconv

  const NoStorageError: string := "no hay ruta de almacenamiento configurada"
  const MkdirErrorPrefix: string := "error creando directorios: "
  const FilePrefix: string := "FACTURA-"

  /** The folders that exist and the files with their contents. */
  class FileSystem {
    var dirs: set<string>
    var files: map<string, Bytes>

    constructor ()
      ensures dirs == {} && files == map[]
    {
      dirs := {};
      files := map[];
    }
  }

  /** `filepath.Join` of two non-empty elements, without the lexical clean-up. */
  function PathJoin(dir: string, name: string): string
  {
    dir + "/" + name
  }

  /** A joined path lies under the folder it was joined to. */
  lemma JoinUnder(dir: string, name: string)
    ensures HasPrefix(PathJoin(dir, name), dir)
  {
    assert PathJoin(dir, name)[..|dir|] == dir;
  }

  lemma PrefixTrans(a: string, b: string, c: string)
    requires HasPrefix(a, b) && HasPrefix(b, c)
    ensures HasPrefix(a, c)
  {
    assert a[..|c|] == a[..|b|][..|c|];
  }

  /** The year folder, `fmt.Sprintf("%d", year)`. */
  function YearDir(year: int): string
  {
    IntToString(year)
  }

  /** The month folder, `fmt.Sprintf("%02d", month)`. */
  function MonthDir(month: int): string
  {
    ZeroPad(month, 2)
  }

  function DocumentDir(storagePath: string, fecha: DateTime): string
  {
    PathJoin(PathJoin(storagePath, YearDir(fecha.date.year)), MonthDir(fecha.date.month))
  }

  /**
   * The folders `MkdirAll` leaves in place for a document: the storage folder,
   * its year folder and the month folder inside that.
   */
  function DocumentDirs(storagePath: string, fecha: DateTime): (r: set<string>)
    ensures storagePath in r && DocumentDir(storagePath, fecha) in r
    ensures forall d :: d in r ==> HasPrefix(d, storagePath)
  {
    var yearDir := PathJoin(storagePath, YearDir(fecha.date.year));
    JoinUnder(storagePath, YearDir(fecha.date.year));
    JoinUnder(yearDir, MonthDir(fecha.date.month));
    PrefixTrans(DocumentDir(storagePath, fecha), yearDir, storagePath);
    assert storagePath[..|storagePath|] == storagePath;
    {storagePath, yearDir, DocumentDir(storagePath, fecha)}
  }

  function DocumentName(secuencial: string, fileType: string): string
  {
    FilePrefix + secuencial + "." + fileType
  }

  /** The storage folder, when the configuration names one. */
  function StorageOf(config: Option<EmisorConfig>): Option<string>
  {
    if config.None? || config.value.storagePath == "" then None else Some(config.value.storagePath)
  }

  /**
   * `saveDocument`: no storage folder is an error and touches nothing; a failed
   * `MkdirAll` is reported with its cause; otherwise the storage, year and month
   * folders exist and, unless the write fails, the file holds the content.
   */
  method SaveDocument(fs: FileSystem, config: Option<EmisorConfig>, secuencial: string, fecha: DateTime,
                      fileType: string, content: Bytes, mkdirError: Option<string>, writeError: Option<string>)
    returns (err: Option<string>)
    modifies fs
    ensures StorageOf(config).None? ==> err == Some(NoStorageError) && fs.dirs == old(fs.dirs) && fs.files == old(fs.files)
    ensures StorageOf(config).Some? && mkdirError.Some? ==>
      err == Some(MkdirErrorPrefix + mkdirError.value) && fs.dirs == old(fs.dirs) && fs.files == old(fs.files)
    ensures StorageOf(config).Some? && mkdirError.None? ==>
      var dir := DocumentDir(StorageOf(config).value, fecha);
      && err == writeError
      && fs.dirs == old(fs.dirs) + DocumentDirs(StorageOf(config).value, fecha)
      && fs.files == if writeError.None? then old(fs.files)[PathJoin(dir, DocumentName(secuencial, fileType)) := content] else old(fs.files)
  {
    if config.None? || config.value.storagePath == "" {
      return Some(NoStorageError);
    }
    var year := IntToString(fecha.date.year);
    var month := ZeroPad(fecha.date.month, 2);
    var fullPath := PathJoin(PathJoin(config.value.storagePath, year), month);
    if mkdirError.Some? {
      return Some(MkdirErrorPrefix + mkdirError.value);
    }
    fs.dirs := fs.dirs + {config.value.storagePath, PathJoin(config.value.storagePath, year), fullPath};
    var fileName := FilePrefix + secuencial + "." + fileType;
    var finalPath := PathJoin(fullPath, fileName);
    if writeError.None? {
      fs.files := fs.files[finalPath := content];
    }
    return writeError;
  }

  /**
   * The folder names read back as the invoice's year and month: the year in
   * plain decimal, the month (1 to 12) always in two digits.
   */
  lemma FolderNames(fecha: DateTime)
    requires ValidDate(fecha.date) && MinInt <= fecha.date.year <= MaxInt
    ensures AtoiValue(YearDir(fecha.date.year)) == fecha.date.year
    ensures |MonthDir(fecha.date.month)| == 2 && AllDigits(MonthDir(fecha.date.month))
    ensures DigitsValue(MonthDir(fecha.date.month)) == fecha.date.month
  {
    AtoiIntToString(fecha.date.year);
  }

  /**
   * For numeric sequentials, the file name determines the sequential and the
   * type: the XML and the RIDE of one invoice, or the files of two invoices,
   * never overwrite each other within a month folder.
   */
  lemma DocumentNameInjective(s1: string, t1: string, s2: string, t2: string)
    requires AllDigits(s1) && AllDigits(s2)
    requires DocumentName(s1, t1) == DocumentName(s2, t2)
    ensures s1 == s2 && t1 == t2
  {
    DotAfterDigits(s1, t1);
    DotAfterDigits(s2, t2);
    var n := DocumentName(s1, t1);
    assert s1 == n[|FilePrefix|..|FilePrefix| + |s1|];
    assert s2 == n[|FilePrefix|..|FilePrefix| + |s2|];
    assert t1 == n[|FilePrefix| + |s1| + 1..];
    assert t2 == n[|FilePrefix| + |s2| + 1..];
  }

  /** The first '.' of a file name is the one after the sequential. */
  lemma DotAfterDigits(s: string, t: string)
    requires AllDigits(s)
    ensures FirstIndexOfChar(DocumentName(s, t), '.') == |FilePrefix| + |s|
  {
    var n := DocumentName(s, t);
    assert forall j :: 0 <= j < |FilePrefix| ==> n[j] == FilePrefix[j];
    assert forall j :: |FilePrefix| <= j < |FilePrefix| + |s| ==> n[j] == s[j - |FilePrefix|];
    assert n[|FilePrefix| + |s|] == '.';
  }
}
