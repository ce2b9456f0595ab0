/** File intake for `POST /salaries/:id/documents`: the media-type allow-list,
    the upload limits, the generated on-disk filename and the public URL. */
module FileIntake {
  import opened SalaryTypes

  const MAX_FILES: nat := 5
  const MAX_FILE_SIZE: nat := 10 * 1024 * 1024

  const ALLOWED_MIMES: set<string> :=
    {"application/pdf", "image/png", "image/jpeg", "image/jpg", "image/gif", "image/webp"}

  /** A file part of the multipart request, as the upload middleware sees it. */
  datatype IncomingFile = IncomingFile(originalname: string, mimetype: string, size: nat)

  /** A file written to the upload directory, as the handler receives it. */
  datatype StoredFile = StoredFile(originalname: string, filename: string, mimetype: string, size: nat)

  /** Why the upload middleware rejects a request before the handler runs. */
  datatype IntakeError =
    | TooManyFiles
    | UnsupportedType(mimetype: string)
    | FileTooLarge(originalname: string)

  /** The file filter's test: `allowedMimes.has(file.mimetype)`. */
  function AllowedMime(mimetype: string): (b: bool)
    ensures b ==> mimetype == "application/pdf" || (|mimetype| > 6 && mimetype[..6] == "image/")
    ensures mimetype in {"text/plain", "text/html", "image/svg+xml", "application/octet-stream"} ==> !b
  {
    mimetype in ALLOWED_MIMES
  }

  // `path.extname` on POSIX paths, built from three scans of the name.

  /** The path without its trailing slashes. */
  function StripTrailingSlashes(s: string): (r: string)
    ensures r <= s
    ensures r == [] || r[|r| - 1] != '/'
    ensures forall i :: |r| <= i < |s| ==> s[i] == '/'
  {
    if s != [] && s[|s| - 1] == '/' then StripTrailingSlashes(s[..|s| - 1]) else s
  }

  /** The part of `s` after its last slash. */
  function LastSegment(s: string): (r: string)
    ensures '/' !in r
  {
    if s == [] || s[|s| - 1] == '/' then [] else LastSegment(s[..|s| - 1]) + [s[|s| - 1]]
  }

  /** The last segment is the tail of the path after its last slash. */
  lemma {:induction false} LastSegmentIsTail(s: string)
    ensures |LastSegment(s)| <= |s| && LastSegment(s) == s[|s| - |LastSegment(s)|..]
    ensures |LastSegment(s)| < |s| ==> s[|s| - |LastSegment(s)| - 1] == '/'
  {
    if s != [] && s[|s| - 1] != '/' {
      var t := s[..|s| - 1];
      LastSegmentIsTail(t);
      assert s[|s| - |LastSegment(s)|..] == t[|t| - |LastSegment(t)|..] + [s[|s| - 1]];
    }
  }

  /** The index of the last `c` in `s`, or -1. */
  function LastIndexOf(s: string, c: char): (i: int)
    ensures -1 <= i < |s|
    ensures i >= 0 ==> s[i] == c
    ensures forall j :: i < j < |s| ==> s[j] != c
  {
    if s == [] then -1
    else if s[|s| - 1] == c then |s| - 1
    else LastIndexOf(s[..|s| - 1], c)
  }

  /** The extension of one path segment: from its last dot to its end, or ""
      when it has no dot after its first character or is "..". */
  function SegmentExt(base: string): (ext: string)
    ensures ext == [] || (ext[0] == '.' && '.' !in ext[1..] && '/' !in ext)
    requires '/' !in base
  {
    var dot := LastIndexOf(base, '.');
    if dot <= 0 || base == ".." then "" else base[dot..]
  }

  /** `path.extname(name)`: the extension of the last path segment. */
  function ExtName(name: string): (ext: string)
    ensures ext == [] || (ext[0] == '.' && '.' !in ext[1..] && '/' !in ext)
  {
    SegmentExt(LastSegment(StripTrailingSlashes(name)))
  }

  /** What `path.extname` means: with `b` the last segment of the name, the
      extension is empty exactly when `b` is ".." or has no dot after its first
      character; otherwise it is the tail of `b` from its last dot. */
  lemma ExtNameMeaning(name: string, b: string)
    requires b == LastSegment(StripTrailingSlashes(name))
    ensures ExtName(name) == [] <==> (b == ".." || forall i :: 0 < i < |b| ==> b[i] != '.')
    ensures ExtName(name) != [] ==> |ExtName(name)| <= |b| && b[|b| - |ExtName(name)|..] == ExtName(name)
  {
    SegmentExtMeaning(b);
  }

  lemma SegmentExtMeaning(b: string)
    requires '/' !in b
    ensures SegmentExt(b) == [] <==> (b == ".." || forall i :: 0 < i < |b| ==> b[i] != '.')
    ensures var ext := SegmentExt(b); ext != [] ==> |ext| <= |b| && b[|b| - |ext|..] == ext
  {
    var dot := LastIndexOf(b, '.');
    if b == ".." {
    } else if dot <= 0 {
      forall i | 0 < i < |b| ensures b[i] != '.' {
        assert dot < i;
      }
    } else {
      assert SegmentExt(b) == b[dot..] && b[dot] == '.';
    }
  }

  /** The mime-type table behind `mime.extension`: None stands for `false`. */
  function MimeExtension(table: map<string, string>, mimetype: string): Option<string> {
    if mimetype in table then Some(table[mimetype]) else None
  }

  /** `path.extname(originalname) || "." + (mime.extension(mimetype) || "bin")` */
  function ChooseExtension(originalname: string, mimeExt: Option<string>): (ext: string)
    ensures ext != [] && ext[0] == '.'
    ensures ExtName(originalname) != "" ==> ext == ExtName(originalname)
    ensures ExtName(originalname) == "" && mimeExt.Some? && mimeExt.value != "" ==> ext == "." + mimeExt.value
    ensures ExtName(originalname) == "" && (mimeExt.None? || mimeExt.value == "") ==> ext == ".bin"
  {
    var e := ExtName(originalname);
    if e != "" then e
    else "." + (if mimeExt.Some? && mimeExt.value != "" then mimeExt.value else "bin")
  }

  /** The storage's filename callback: a fresh id followed by the chosen extension. */
  function GeneratedFilename(id: string, originalname: string, mimetype: string, table: map<string, string>): (name: string)
    ensures |name| > |id| && name[..|id|] == id && name[|id|] == '.'
    ensures name[|id|..] == ChooseExtension(originalname, MimeExtension(table, mimetype))
  {
    id + ChooseExtension(originalname, MimeExtension(table, mimetype))
  }

  /** The characters `nanoid` draws from. */
  predicate NanoidChar(c: char) {
    ('A' <= c <= 'Z') || ('a' <= c <= 'z') || ('0' <= c <= '9') || c == '_' || c == '-'
  }

  /** The chosen extension has no slash when the table's extensions have none. */
  lemma ExtensionHasNoSlash(originalname: string, mimeExt: Option<string>)
    requires mimeExt.Some? ==> '/' !in mimeExt.value
    ensures '/' !in ChooseExtension(originalname, mimeExt)
  {
    if ExtName(originalname) == "" && mimeExt.Some? && mimeExt.value != "" {
      assert ChooseExtension(originalname, mimeExt) == "." + mimeExt.value;
    }
  }

  /** With a nanoid as prefix, the generated name is a plain file name in the
      upload directory: no slash, not hidden, neither "." nor "..", whatever the
      client called the file. */
  lemma GeneratedFilenameIsSafe(id: string, originalname: string, mimetype: string, table: map<string, string>)
    requires |id| > 0 && forall c :: c in id ==> NanoidChar(c)
    requires forall t :: t in table ==> '/' !in table[t]
    ensures var name := GeneratedFilename(id, originalname, mimetype, table);
      '/' !in name && name[0] != '.' && name != "." && name != ".."
  {
    var ext := ChooseExtension(originalname, MimeExtension(table, mimetype));
    ExtensionHasNoSlash(originalname, MimeExtension(table, mimetype));
    var name := id + ext;
    forall i | 0 <= i < |name| ensures name[i] != '/' {
      if i < |id| {
        assert name[i] == id[i] && NanoidChar(id[i]);
      } else {
        assert name[i] == ext[i - |id|];
      }
    }
    assert name[0] == id[0] && NanoidChar(id[0]);
  }

  /** A name whose last segment ends in a dot after a non-dot has the
      extension ".", which is not empty, so the media-type fallback is skipped
      and the stored name ends in a bare dot. */
  lemma TrailingDotSkipsMimeFallback(id: string, name: string, b: string, mimetype: string, table: map<string, string>)
    requires b == LastSegment(StripTrailingSlashes(name))
    requires |b| >= 2 && b[|b| - 1] == '.' && b[|b| - 2] != '.'
    ensures ExtName(name) == "."
    ensures GeneratedFilename(id, name, mimetype, table) == id + "."
  {
    ExtNameMeaning(name, b);
    assert b != "..";
    var ext := ExtName(name);
    assert ext != [];
    assert ext[|ext| - 1] == b[|b| - 1] == '.';
    assert |ext| == 1;
  }

  /** A name whose last segment is a dot followed by no other dot (".env",
      "."), has no extension, so the media type decides, and ".bin" when
      the table does not know it. */
  lemma DotFileUsesMimeFallback(id: string, name: string, b: string, mimetype: string, table: map<string, string>)
    requires b == LastSegment(StripTrailingSlashes(name))
    requires |b| > 0 && b[0] == '.' && forall i :: 0 < i < |b| ==> b[i] != '.'
    ensures ExtName(name) == ""
    ensures mimetype in table && table[mimetype] != ""
      ==> GeneratedFilename(id, name, mimetype, table) == id + "." + table[mimetype]
    ensures (mimetype !in table || table[mimetype] == "")
      ==> GeneratedFilename(id, name, mimetype, table) == id + ".bin"
  {
    ExtNameMeaning(name, b);
    assert ExtName(name) == "";
    var e := ChooseExtension(name, MimeExtension(table, mimetype));
    assert GeneratedFilename(id, name, mimetype, table) == id + e;
    if mimetype in table && table[mimetype] != "" {
      assert e == "." + table[mimetype];
      assert id + ("." + table[mimetype]) == id + "." + table[mimetype];
    } else {
      assert e == ".bin";
    }
  }

  /** Distinct ids of one length (nanoid(12)) give distinct filenames, whatever
      the original names and types. */
  lemma GeneratedFilenameInjective(id1: string, o1: string, m1: string, id2: string, o2: string, m2: string,
                                   table: map<string, string>)
    requires |id1| == |id2| && id1 != id2
    ensures GeneratedFilename(id1, o1, m1, table) != GeneratedFilename(id2, o2, m2, table)
  {
  }

  /** `buildDocUrl`: the static path that serves an uploaded file. */
  function BuildDocUrl(filename: string): (url: string)
    ensures |url| == |filename| + 9 && url[..9] == "/uploads/" && url[9..] == filename
  {
    "/uploads/" + filename
  }

  lemma BuildDocUrlInjective(f1: string, f2: string)
    requires BuildDocUrl(f1) == BuildDocUrl(f2)
    ensures f1 == f2
  {
  }

  /** The error the upload middleware raises for the file at `position` of the
      request, in the order it checks: the file count, then the file filter,
      then the size limit while the file is written. */
  function FileError(f: IncomingFile, position: nat): (r: Option<IntakeError>)
    ensures r.None? <==> position < MAX_FILES && AllowedMime(f.mimetype) && f.size <= MAX_FILE_SIZE
    ensures position >= MAX_FILES ==> r == Some(TooManyFiles)
    ensures r.Some? && r.value.UnsupportedType? ==> position < MAX_FILES && r.value.mimetype == f.mimetype
    ensures r.Some? && r.value.FileTooLarge? ==> position < MAX_FILES && AllowedMime(f.mimetype)
    ensures position < MAX_FILES && !AllowedMime(f.mimetype) ==> r == Some(UnsupportedType(f.mimetype))
    ensures position < MAX_FILES && AllowedMime(f.mimetype) && f.size > MAX_FILE_SIZE
      ==> r == Some(FileTooLarge(f.originalname))
  {
    if position >= MAX_FILES then Some(TooManyFiles)
    else if !AllowedMime(f.mimetype) then Some(UnsupportedType(f.mimetype))
    else if f.size > MAX_FILE_SIZE then Some(FileTooLarge(f.originalname))
    else None
  }

  /** The file as written to disk under the name drawn for it. */
  function StoreFile(f: IncomingFile, id: string, table: map<string, string>): StoredFile {
    StoredFile(f.originalname, GeneratedFilename(id, f.originalname, f.mimetype, table), f.mimetype, f.size)
  }

  /** The error that aborts a request, looking at its files from index `k`
      on: the first offending file's, or None when every file passes. */
  function FirstRejection(files: seq<IncomingFile>, k: nat): (r: Option<IntakeError>)
    requires k <= |files|
    ensures r.None? <==> (forall i :: k <= i < |files| ==> FileError(files[i], i).None?)
    ensures r.Some? ==> exists i :: (k <= i < |files| && FileError(files[i], i) == r &&
      forall j :: k <= j < i ==> FileError(files[j], j).None?)
    decreases |files| - k
  {
    if k == |files| then None
    else if FileError(files[k], k).Some? then FileError(files[k], k)
    else FirstRejection(files, k + 1)
  }

  /** `upload.array("files", 5)` with the file filter and the 10 MiB limit: a
      rejection aborts the whole request; otherwise every file is stored, in
      order, under the id drawn for it. */
  function Intake(files: seq<IncomingFile>, ids: seq<string>, table: map<string, string>)
    : (r: Result<seq<StoredFile>, IntakeError>)
    requires |ids| == |files|
    ensures r.Ok? ==> |r.value| == |files|
    ensures r.Ok? ==> forall i :: 0 <= i < |files| ==> r.value[i] == StoreFile(files[i], ids[i], table)
    ensures r.Err? ==> FirstRejection(files, 0) == Some(r.error)
  {
    match FirstRejection(files, 0)
    case Some(e) => Err(e)
    case None => Ok(seq(|files|, i requires 0 <= i < |files| => StoreFile(files[i], ids[i], table)))
  }

  /** A request passes intake exactly when it has at most five files and each
      has an allowed type and at most 10 MiB. */
  lemma IntakeAccepts(files: seq<IncomingFile>, ids: seq<string>, table: map<string, string>)
    requires |ids| == |files|
    ensures Intake(files, ids, table).Ok?
        <==> (|files| <= MAX_FILES
              && forall i :: 0 <= i < |files| ==> AllowedMime(files[i].mimetype) && files[i].size <= MAX_FILE_SIZE)
  {
    if |files| > MAX_FILES {
      assert FileError(files[MAX_FILES], MAX_FILES).Some?;
    }
    if Intake(files, ids, table).Ok? {
      forall i | 0 <= i < |files| ensures AllowedMime(files[i].mimetype) && files[i].size <= MAX_FILE_SIZE {
        assert FileError(files[i], i).None?;
      }
    }
  }

  /** A request with an unsupported file type is rejected even when all its
      other files are acceptable. */
  lemma UnsupportedTypeRejectsBatch(files: seq<IncomingFile>, ids: seq<string>, table: map<string, string>, k: nat)
    requires |ids| == |files| && k < |files| && !AllowedMime(files[k].mimetype)
    ensures Intake(files, ids, table).Err?
  {
  }
}
