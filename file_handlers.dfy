/** The file endpoints (`src/file_handlers.rs`): listing a directory under the
    storage base, uploading, downloading, creating a directory and deleting.
    The file system is a set of maps and oracles: `canonicalize` is a
    function from a path to its canonical form (or none when the path does
    not exist), directory contents are a map from canonical path to the
    entries `read_dir` yields, and the kinds of canonical paths a map to
    `FileKind`. Failures of a write, a removal or a directory creation arrive
    as an optional error message. */
module FileHandlers {
  import opened Base
  import opened Text
  import opened Models
  import opened Sorting
  import opened Paths

  const DefaultBase: string := "/home/xianyu/uploads"
  const NotFound: nat := 404
  const Forbidden: nat := 403
  const BadRequest: nat := 400
  const InternalError: nat := 500

  /** `FILE_STORAGE_PATH`, or the default storage directory. */
  function BasePath(env: Option<string>): (base: string)
    ensures env.None? ==> base == DefaultBase
  {
    if env.Some? then env.value else DefaultBase
  }

  /** The `path` query parameter, "." when absent. */
  function RequestedPath(query: Option<string>): string
  {
    if query.Some? then query.value else "."
  }

  // ---------------------------------------------------------------------------
  // Listing
  // ---------------------------------------------------------------------------

  /** What `entry.metadata()` reports. `modified` is the modification time in
      whole seconds since the Unix epoch, absent when the platform has none. */
  datatype Metadata = Metadata(
    len: nat, isDir: bool, isFile: bool, isSymlink: bool, modified: Option<int>, mode: nat)

  /** One entry of `read_dir`; its metadata may fail to load. */
  datatype DirEntry = DirEntry(name: string, metadata: Option<Metadata>)

  /** The permission bits `mode & 0o777` written in octal. */
  function Permissions(mode: nat): (s: string)
    ensures 1 <= |s| <= 3 && AllOctal(s)
    ensures OctalValue(s) == mode % 512
  {
    OctalAtMostThreeDigits(mode % 512);
    OctalRoundTrip(mode % 512);
    Octal(mode % 512)
  }

  /** The modification time in seconds; a time before the epoch, or none, is 0. */
  function ModifiedSecs(modified: Option<int>): (t: int)
    ensures t >= 0
    ensures t == 0 <==> modified.None? || modified.value <= 0
    ensures t != 0 ==> t == modified.value
  {
    if modified.Some? && modified.value >= 0 then modified.value else 0
  }

  /** The `path` of an entry: the text of `full.join(name)` with the base
      string removed from its front when it is there. */
  function EntryPath(full: string, name: string, base: string): (p: string)
    ensures base <= PathJoin(full, name) ==> base + p == PathJoin(full, name)
    ensures !(base <= PathJoin(full, name)) ==> p == PathJoin(full, name)
  {
    var joined := PathJoin(full, name);
    if base <= joined then joined[|base|..] else joined
  }

  /** Inside a listed directory that textually extends the base, an entry's
      path is the rest of the directory's text, a separator and the name. */
  lemma EntryPathUnderDirectory(full: string, name: string, base: string)
    requires base <= full && full != "" && full[|full| - 1] != '/' && !IsAbsolute(name)
    ensures EntryPath(full, name, base) == full[|base|..] + "/" + name
  {
    var joined := full + "/" + name;
    assert PathJoin(full, name) == joined;
    assert joined[..|base|] == full[..|base|];
    assert joined[|base|..] == full[|base|..] + "/" + name;
  }

  /** The `FileInfo` of an entry whose metadata loaded. */
  function EntryInfo(full: string, base: string, name: string, m: Metadata): (f: FileInfo)
    ensures f.name == name && f.size == m.len && f.isDir == m.isDir && f.isFile == m.isFile
    ensures f.permissions == Permissions(m.mode) && f.modified == ModifiedSecs(m.modified)
  {
    FileInfo(name, EntryPath(full, name, base), m.len, m.isDir, m.isFile, m.isSymlink,
      ModifiedSecs(m.modified), Permissions(m.mode))
  }

  /** How many entries are read before the first read error, which ends the loop. */
  function ReadCount(entries: seq<Option<DirEntry>>): (n: nat)
    ensures n <= |entries|
    ensures forall i :: 0 <= i < n ==> entries[i].Some?
    ensures n < |entries| ==> entries[n].None?
    decreases |entries|
  {
    if entries == [] || entries[0].None? then 0 else 1 + ReadCount(entries[1..])
  }

  /** The read count is the only index with those three properties. */
  lemma {:induction false} ReadCountUnique(entries: seq<Option<DirEntry>>, n: nat)
    requires n <= |entries|
    requires forall i :: 0 <= i < n ==> entries[i].Some?
    requires n < |entries| ==> entries[n].None?
    ensures ReadCount(entries) == n
    decreases |entries|
  {
    if entries != [] && entries[0].Some? {
      ReadCountUnique(entries[1..], n - 1);
    }
  }

  /** The entries collected from the first `n` reads: those whose metadata
      loaded, in the order `read_dir` gave them. */
  function Collected(full: string, base: string, entries: seq<Option<DirEntry>>, n: nat): (files: seq<FileInfo>)
    requires n <= |entries|
    requires forall i :: 0 <= i < n ==> entries[i].Some?
    ensures |files| <= n
    decreases n
  {
    if n == 0 then []
    else
      var e := entries[n - 1].value;
      Collected(full, base, entries, n - 1)
        + (if e.metadata.Some? then [EntryInfo(full, base, e.name, e.metadata.value)] else [])
  }

  /** Every collected entry comes from an entry read whose metadata loaded. */
  lemma {:induction false} CollectedFromEntries(full: string, base: string, entries: seq<Option<DirEntry>>, n: nat, f: FileInfo)
    requires n <= |entries|
    requires forall i :: 0 <= i < n ==> entries[i].Some?
    requires f in Collected(full, base, entries, n)
    ensures exists i :: 0 <= i < n && entries[i].value.metadata.Some? && f.name == entries[i].value.name
    decreases n
  {
    var e := entries[n - 1].value;
    var prev := Collected(full, base, entries, n - 1);
    if f in prev {
      CollectedFromEntries(full, base, entries, n - 1, f);
    } else {
      assert e.metadata.Some? && f == EntryInfo(full, base, e.name, e.metadata.value);
    }
  }

  /** Every entry read with loaded metadata is collected. */
  lemma {:induction false} EntriesAreCollected(full: string, base: string, entries: seq<Option<DirEntry>>, n: nat, i: nat)
    requires n <= |entries|
    requires forall j :: 0 <= j < n ==> entries[j].Some?
    requires i < n && entries[i].value.metadata.Some?
    ensures EntryInfo(full, base, entries[i].value.name, entries[i].value.metadata.value) in Collected(full, base, entries, n)
    decreases n
  {
    if i < n - 1 {
      EntriesAreCollected(full, base, entries, n - 1, i);
    }
  }

  /** The listing comparator: directories first, then names in code-point order. */
  function ListingCompare(a: FileInfo, b: FileInfo): (r: int)
    ensures a.isDir != b.isDir ==> (r < 0 <==> a.isDir)
    ensures r == 0 <==> a.isDir == b.isDir && a.name == b.name
  {
    CompareAntisymmetric(a.name, b.name);
    if a.isDir && !b.isDir then -1
    else if !a.isDir && b.isDir then 1
    else Compare(a.name, b.name)
  }

  function ListingOrder(): (FileInfo, FileInfo) -> int
  {
    (a: FileInfo, b: FileInfo) => ListingCompare(a, b)
  }

  lemma ListingOrderIsPreorder()
    ensures TotalPreorder(ListingOrder())
  {
    var cmp := ListingOrder();
    forall a, b ensures cmp(a, b) <= 0 || cmp(b, a) <= 0 {
      CompareAntisymmetric(a.name, b.name);
    }
    forall a, b, c | cmp(a, b) <= 0 && cmp(b, c) <= 0 ensures cmp(a, c) <= 0 {
      if a.isDir == b.isDir && b.isDir == c.isDir {
        CompareTransitive(a.name, b.name, c.name);
      }
    }
  }

  /** `files.sort_by(...)`, a stable sort. */
  function SortListing(files: seq<FileInfo>): (r: seq<FileInfo>)
    ensures multiset(r) == multiset(files)
    ensures SortedBy(r, ListingOrder())
  {
    ListingOrderIsPreorder();
    SortSorted(files, ListingOrder());
    Sort(files, ListingOrder())
  }

  /** The sorted listing holds the same entries, every directory before every
      other entry, and entries of one kind in ascending name order. */
  lemma SortListingOrder(files: seq<FileInfo>)
    ensures multiset(SortListing(files)) == multiset(files)
    ensures var r := SortListing(files);
      forall i, j :: 0 <= i < j < |r| && r[j].isDir ==> r[i].isDir
    ensures var r := SortListing(files);
      forall i, j :: 0 <= i < j < |r| && r[i].isDir == r[j].isDir ==> Compare(r[i].name, r[j].name) <= 0
  {
    ListingOrderIsPreorder();
    SortSorted(files, ListingOrder());
    var r := SortListing(files);
    forall i, j | 0 <= i < j < |r| && r[j].isDir ensures r[i].isDir {
      assert ListingOrder()(r[i], r[j]) <= 0;
    }
    forall i, j | 0 <= i < j < |r| && r[i].isDir == r[j].isDir ensures Compare(r[i].name, r[j].name) <= 0 {
      assert ListingOrder()(r[i], r[j]) <= 0;
    }
  }

  /** The components of `p.strip_prefix(base)` written with single '/' separators,
      or `p` itself when it is not under the base. For a canonical `p` this is the
      text `strip_prefix` returns; otherwise repeated separators and "." pieces
      are normalised away. */
  function RelativeText(p: string, base: string): (t: string)
    ensures StartsWith(p, base) ==> t == Render(Components(p)[|Components(base)|..])
  {
    match StripPrefix(p, base)
    case Some(rest) => Render(rest)
    case None => p
  }

  /** The `parent` field: for a directory other than the base, its parent
      relative to the base, when the parent is still under the base. */
  function ListingParent(full: string, base: string): (r: Option<string>)
    ensures Components(full) == Components(base) ==> r.None?
    ensures r.Some? ==> var cf, cb := Components(full), Components(base);
      |cf| > 0 && cb <= cf[..|cf| - 1] && r.value == Render(cf[..|cf| - 1][|cb|..])
  {
    var cf, cb := Components(full), Components(base);
    if cf != cb then
      match Parent(cf)
      case Some(pc) => if cb <= pc then Some(Render(pc[|cb|..])) else None
      case None => None
    else None
  }

  /** Under a non-empty base, the parent is absent exactly at the base itself;
      elsewhere it is the listed path's components without the last one. */
  lemma ListingParentAtBase(full: string, base: string)
    requires StartsWith(full, base) && Components(base) != []
    ensures ListingParent(full, base).None? <==> Components(full) == Components(base)
    ensures var cf, cb := Components(full), Components(base);
      cf != cb ==> ListingParent(full, base) == Some(Render(cf[|cb|..|cf| - 1]))
  {
    var cf, cb := Components(full), Components(base);
    if cf != cb {
      assert cf[..|cb|] == cb;
      assert |cf| > |cb|;
      assert cf != [RootDir] && cf != [];
      var pc := cf[..|cf| - 1];
      assert cb <= pc by { assert pc[..|cb|] == cf[..|cb|]; }
      assert pc[|cb|..] == cf[|cb|..|cf| - 1];
    }
  }

  /** `list_files_handler`: status code on failure. */
  function Listing(query: Option<string>, base: string, canonicalize: string -> Option<string>,
                   dirs: map<string, seq<Option<DirEntry>>>): (r: Result<DirectoryListing, nat>)
    ensures r.Err? ==> r.error == NotFound || r.error == Forbidden
    ensures r.Ok? ==> var c := canonicalize(PathJoin(base, RequestedPath(query)));
      && c.Some? && StartsWith(c.value, base) && c.value in dirs
      && multiset(r.value.files) == multiset(Collected(c.value, base, dirs[c.value], ReadCount(dirs[c.value])))
  {
    match canonicalize(PathJoin(base, RequestedPath(query)))
    case None => Err(NotFound)
    case Some(full) =>
      if !StartsWith(full, base) then Err(Forbidden)
      else if full !in dirs then Err(NotFound)
      else
        var entries := dirs[full];
        Ok(DirectoryListing(
          RelativeText(full, base),
          ListingParent(full, base),
          SortListing(Collected(full, base, entries, ReadCount(entries)))))
  }

  /** `list_files_handler`, reading the entries one at a time. */
  method ListFiles(query: Option<string>, base: string, canonicalize: string -> Option<string>,
                   dirs: map<string, seq<Option<DirEntry>>>) returns (r: Result<DirectoryListing, nat>)
    ensures r == Listing(query, base, canonicalize, dirs)
  {
    var fullPath := canonicalize(PathJoin(base, RequestedPath(query)));
    if fullPath.None? {
      return Err(NotFound);
    }
    var full := fullPath.value;
    if !StartsWith(full, base) {
      return Err(Forbidden);
    }
    if full !in dirs {
      return Err(NotFound);
    }
    var entries := dirs[full];
    var files := ReadEntries(full, base, entries);
    files := SortListing(files);
    r := Ok(DirectoryListing(RelativeText(full, base), ListingParent(full, base), files));
  }

  /** The `while let` loop of `list_files_handler`: entries are read until the
      first read error, and those whose metadata fails to load are skipped. */
  method ReadEntries(full: string, base: string, entries: seq<Option<DirEntry>>) returns (files: seq<FileInfo>)
    ensures files == Collected(full, base, entries, ReadCount(entries))
  {
    files := [];
    var i := 0;
    while i < |entries| && entries[i].Some?
      invariant i <= |entries|
      invariant forall j :: 0 <= j < i ==> entries[j].Some?
      invariant files == Collected(full, base, entries, i)
    {
      var entry := entries[i].value;
      if entry.metadata.Some? {
        files := files + [EntryInfo(full, base, entry.name, entry.metadata.value)];
      }
      i := i + 1;
    }
    ReadCountUnique(entries, i);
  }

  /** A listing fails with 404 when the path has no canonical form or is not a
      readable directory, and with 403 when its canonical form leaves the base. */
  lemma ListingErrors(query: Option<string>, base: string, canonicalize: string -> Option<string>,
                      dirs: map<string, seq<Option<DirEntry>>>)
    ensures var c := canonicalize(PathJoin(base, RequestedPath(query)));
      Listing(query, base, canonicalize, dirs) == Err(Forbidden) <==> c.Some? && !StartsWith(c.value, base)
    ensures var c := canonicalize(PathJoin(base, RequestedPath(query)));
      Listing(query, base, canonicalize, dirs) == Err(NotFound) <==>
        c.None? || (StartsWith(c.value, base) && c.value !in dirs)
    ensures var c := canonicalize(PathJoin(base, RequestedPath(query)));
      Listing(query, base, canonicalize, dirs).Ok? <==> c.Some? && StartsWith(c.value, base) && c.value in dirs
  {
  }

  /** A successful listing holds one entry per entry read before the first
      read error whose metadata loaded, directories first and names ascending. */
  lemma ListingContents(query: Option<string>, base: string, canonicalize: string -> Option<string>,
                        dirs: map<string, seq<Option<DirEntry>>>)
    requires Listing(query, base, canonicalize, dirs).Ok?
    ensures var full := canonicalize(PathJoin(base, RequestedPath(query))).value;
      var entries := dirs[full];
      var r := Listing(query, base, canonicalize, dirs).value;
      && multiset(r.files) == multiset(Collected(full, base, entries, ReadCount(entries)))
      && r.path == Render(Components(full)[|Components(base)|..])
      && (forall i, j :: 0 <= i < j < |r.files| && r.files[j].isDir ==> r.files[i].isDir)
      && (forall i, j :: 0 <= i < j < |r.files| && r.files[i].isDir == r.files[j].isDir ==>
            Compare(r.files[i].name, r.files[j].name) <= 0)
  {
    var full := canonicalize(PathJoin(base, RequestedPath(query))).value;
    var entries := dirs[full];
    SortListingOrder(Collected(full, base, entries, ReadCount(entries)));
  }

  // ---------------------------------------------------------------------------
  // Download and delete
  // ---------------------------------------------------------------------------

  datatype FileKind = RegularFile | Directory | OtherKind

  /** The headers of a download reply. */
  datatype DownloadReply = DownloadReply(contentType: string, disposition: string, length: nat)

  /** `file_name()`: the last component when it is a name, else "download". */
  function DownloadName(p: string): (name: string)
    ensures var cs := Components(p); cs != [] && cs[|cs| - 1].Normal? ==> name == cs[|cs| - 1].name
  {
    var cs := Components(p);
    if cs != [] && cs[|cs| - 1].Normal? then cs[|cs| - 1].name else "download"
  }

  /** `download_file_handler`; `length` is the size the opened file reports,
      absent when opening it or reading its metadata fails. */
  function Download(base: string, filePath: string, canonicalize: string -> Option<string>,
                    kinds: map<string, FileKind>, length: Option<nat>): (r: Result<DownloadReply, nat>)
    ensures r.Err? ==> r.error == Forbidden || r.error == NotFound || r.error == InternalError
    ensures r.Ok? ==> var c := canonicalize(PathJoin(base, filePath));
      && c.Some? && StartsWith(c.value, base) && c.value in kinds && kinds[c.value] == RegularFile
      && length == Some(r.value.length)
  {
    match canonicalize(PathJoin(base, filePath))
    case None => Err(Forbidden)
    case Some(full) =>
      if !StartsWith(full, base) then Err(Forbidden)
      else if full !in kinds || kinds[full] != RegularFile then Err(NotFound)
      else if length.None? then Err(InternalError)
      else Ok(DownloadReply("application/octet-stream",
        "attachment; filename=\"" + DownloadName(full) + "\"", length.value))
  }

  /** A download is refused with 403 exactly when the canonical target is
      missing or outside the base, answers 404 exactly when it is inside but
      not an existing regular file, and otherwise names the file it sends. */
  lemma DownloadDecision(base: string, filePath: string, canonicalize: string -> Option<string>,
                         kinds: map<string, FileKind>, length: Option<nat>)
    ensures var c := canonicalize(PathJoin(base, filePath));
      Download(base, filePath, canonicalize, kinds, length) == Err(Forbidden) <==> c.None? || !StartsWith(c.value, base)
    ensures var c := canonicalize(PathJoin(base, filePath));
      Download(base, filePath, canonicalize, kinds, length) == Err(NotFound) <==>
        c.Some? && StartsWith(c.value, base) && (c.value !in kinds || kinds[c.value] != RegularFile)
    ensures var c := canonicalize(PathJoin(base, filePath));
      Download(base, filePath, canonicalize, kinds, length).Ok? ==>
        && StartsWith(c.value, base) && kinds[c.value] == RegularFile
        && Download(base, filePath, canonicalize, kinds, length).value.length == length.value
  {
  }

  /** The removal a delete performs. */
  datatype Removal = RemoveDirAll(path: string) | RemoveFile(path: string)

  /** The removal `delete_file_handler` chooses, or none when it refuses. */
  function DeleteTarget(base: string, reqPath: string, canonicalize: string -> Option<string>,
                        kinds: map<string, FileKind>): (r: Option<Removal>)
    ensures r.Some? ==> StartsWith(r.value.path, base)
  {
    match canonicalize(PathJoin(base, reqPath))
    case None => None
    case Some(full) =>
      if !StartsWith(full, base) then None
      else if full in kinds && kinds[full] == Directory then Some(RemoveDirAll(full))
      else Some(RemoveFile(full))
  }

  /** The reply of a delete: `removal` is what was chosen, `error` the failure of the removal. */
  function DeleteReply(removal: Option<Removal>, error: Option<string>): (r: UploadResponse)
    ensures r.success <==> removal.Some? && error.None?
    ensures r.filePath.None?
  {
    if removal.None? then UploadResponse(false, "Invalid file path", None)
    else if error.None? then UploadResponse(true, "File deleted successfully", None)
    else UploadResponse(false, "Failed to delete file: " + error.value, None)
  }

  /** Delete removes nothing outside the base or without a canonical target;
      it removes a directory recursively and anything else as a file. */
  lemma DeleteDispatch(base: string, reqPath: string, canonicalize: string -> Option<string>,
                       kinds: map<string, FileKind>)
    ensures var c := canonicalize(PathJoin(base, reqPath));
      DeleteTarget(base, reqPath, canonicalize, kinds).None? <==> c.None? || !StartsWith(c.value, base)
    ensures var c := canonicalize(PathJoin(base, reqPath));
      var t := DeleteTarget(base, reqPath, canonicalize, kinds);
      t.Some? ==> t.value.path == c.value && (t.value.RemoveDirAll? <==> c.value in kinds && kinds[c.value] == Directory)
  {
  }

  // ---------------------------------------------------------------------------
  // Creating a directory
  // ---------------------------------------------------------------------------

  /** `base.join(path).join(name)`. */
  function NewDirectoryPath(base: string, path: string, name: string): string
  {
    PathJoin(PathJoin(base, path), name)
  }

  /** Relative parts joined under a non-empty base extend the base's components. */
  lemma RelativeJoinExtends(base: string, path: string, name: string)
    ensures base != "" && !IsAbsolute(path) && !IsAbsolute(name) ==>
      Components(base) <= Components(PathJoin(PathJoin(base, path), name))
  {
    if base != "" && !IsAbsolute(path) && !IsAbsolute(name) {
      JoinTwice(base, path, name);
      ConcatAssoc(Components(base), Normalise(Split(path, '/')), Normalise(Split(name, '/')));
    }
  }

  /** The check as written: the joined path must start with the base,
      component by component, before any ".." in it is applied. */
  predicate CreateDirectoryAllowedAsWritten(base: string, path: string, name: string)
    ensures base != "" && !IsAbsolute(path) && !IsAbsolute(name) ==> CreateDirectoryAllowedAsWritten(base, path, name)
  {
    RelativeJoinExtends(base, path, name);
    StartsWith(NewDirectoryPath(base, path, name), base)
  }

  /** The pieces of "..". */
  lemma ParentPieces()
    ensures Normalise(Split("..", '/')) == [ParentDir]
  {
    SplitWithoutSep("..", '/');
  }

  /** A ".." and a name after a resolved base ending in a name: the name
      replaces the base's last component. */
  lemma ResolveUpAndName(cb: seq<Component>, name: string)
    requires |cb| >= 1 && cb[|cb| - 1].Normal? && Resolve(cb) == cb
    ensures Resolve(cb + [ParentDir, Normal(name)]) == cb[..|cb| - 1] + [Normal(name)]
  {
    var up := cb + [ParentDir];
    AppendTwo(cb, ParentDir, Normal(name));
    ResolveThenUp(cb);
    assert Resolve(up) == cb[..|cb| - 1];
    ResolveThenName(up, name);
  }

  /** Components that go up from a resolved base ending in a name and then
      down to another name: they extend the base, but their resolution does not. */
  lemma EscapeAfterUp(cb: seq<Component>, c: seq<Component>, name: string)
    requires |cb| >= 1 && cb[|cb| - 1].Normal? && cb[|cb| - 1].name != name && Resolve(cb) == cb
    requires c == cb + [ParentDir, Normal(name)]
    ensures Resolve(c) == cb[..|cb| - 1] + [Normal(name)]
    ensures cb <= c
    ensures !(Resolve(cb) <= Resolve(c))
  {
    ResolveUpAndName(cb, name);
    var r := cb[..|cb| - 1] + [Normal(name)];
    assert r[|cb| - 1] != cb[|cb| - 1];
  }

  /** The components of `base.join("..").join(name)`. */
  lemma NewDirectoryUpComponents(base: string, name: string)
    requires base != "" && PlainName(name)
    ensures Components(NewDirectoryPath(base, "..", name)) == Components(base) + [ParentDir, Normal(name)]
  {
    ParentPieces();
    JoinUpThenName(base, "..", name);
  }

  lemma JoinUpThenName(base: string, up: string, name: string)
    requires base != "" && PlainName(name) && !IsAbsolute(up) && Normalise(Split(up, '/')) == [ParentDir]
    ensures Components(PathJoin(PathJoin(base, up), name)) == Components(base) + [ParentDir, Normal(name)]
  {
    PlainNameComponents(name);
    JoinTwice(base, up, name);
    AppendTwo(Components(base), ParentDir, Normal(name));
  }

  /** A request with `path` ".." passes the check as written under any
      resolved base that ends in a name, yet the directory it creates lies
      beside the base, not inside it. */
  lemma CreateDirectoryEscapes(base: string, name: string)
    requires base != "" && PlainName(name)
    requires var cb := Components(base); |cb| >= 1 && cb[|cb| - 1].Normal? && cb[|cb| - 1].name != name
    requires Resolve(Components(base)) == Components(base)
    ensures CreateDirectoryAllowedAsWritten(base, "..", name)
    ensures var cb := Components(base);
      Resolve(Components(NewDirectoryPath(base, "..", name))) == cb[..|cb| - 1] + [Normal(name)]
    ensures !(Resolve(Components(base)) <= Resolve(Components(NewDirectoryPath(base, "..", name))))
  {
    NewDirectoryUpComponents(base, name);
    EscapeAfterUp(Components(base), Components(NewDirectoryPath(base, "..", name)), name);
  }


  /** The corrected check: neither part may be absolute or hold a ".." component. */
  predicate CreateDirectoryAllowed(base: string, path: string, name: string)
    ensures CreateDirectoryAllowed(base, path, name) ==> CreateDirectoryAllowedAsWritten(base, path, name)
    ensures base != "" && Confined(path) && Confined(name) ==> CreateDirectoryAllowed(base, path, name)
  {
    RelativeJoinExtends(base, path, name);
    Confined(path) && Confined(name) && StartsWith(NewDirectoryPath(base, path, name), base)
  }

  /** The corrected check accepts only directories that, once ".." is
      applied, still lie under the base; and it accepts every request whose
      parts are plain relative paths, which the check as written accepts too. */
  lemma CreateDirectoryAllowedStaysInside(base: string, path: string, name: string)
    requires base != ""
    ensures CreateDirectoryAllowed(base, path, name) ==>
      Resolve(Components(base)) <= Resolve(Components(NewDirectoryPath(base, path, name)))
    ensures Confined(path) && Confined(name) ==>
      CreateDirectoryAllowed(base, path, name) && CreateDirectoryAllowedAsWritten(base, path, name)
  {
    if Confined(path) && Confined(name) {
      ConfinedJoinStaysInside(base, path, name);
      JoinTwice(base, path, name);
    }
  }

  /** The directory `create_dir_all` is asked to create, with the corrected
      check: none when the request is refused. */
  function DirectoryToCreate(base: string, path: string, name: string): (r: Option<string>)
    requires base != ""
    ensures r.Some? <==> CreateDirectoryAllowed(base, path, name)
    ensures r.Some? ==> StartsWith(r.value, base) && Resolve(Components(base)) <= Resolve(Components(r.value))
  {
    CreateDirectoryAllowedStaysInside(base, path, name);
    if CreateDirectoryAllowed(base, path, name) then Some(NewDirectoryPath(base, path, name)) else None
  }

  /** The reply of `create_directory_handler` with the corrected check;
      `error` is the failure of `create_dir_all`, which only runs when the
      check passes. */
  function CreateDirectory(base: string, path: string, name: string, error: Option<string>): (r: UploadResponse)
    ensures r.success <==> CreateDirectoryAllowed(base, path, name) && error.None?
    ensures r.success ==> r.filePath.Some?
  {
    if !CreateDirectoryAllowed(base, path, name) then
      UploadResponse(false, "Invalid directory path", None)
    else if error.None? then
      var dir := NewDirectoryPath(base, path, name);
      UploadResponse(true, "Directory '" + name + "' created successfully", Some(RelativeText(dir, base)))
    else
      UploadResponse(false, "Failed to create directory: " + error.value, None)
  }

  // ---------------------------------------------------------------------------
  // Upload
  // ---------------------------------------------------------------------------

  /** The first read of the multipart stream: a malformed stream, no field at
      all, or a field with its file name and whether its body could be read. */
  datatype FieldRead = StreamError | NoField | Field(fileName: Option<string>, bodyOk: bool)

  function IntToString(n: int): string
  {
    if n < 0 then "-" + NatToString(-n) else NatToString(n)
  }

  /** The stored file name: the field's own, or "unnamed_" and the time. */
  function UploadName(fileName: Option<string>, now: int): string
  {
    if fileName.Some? then fileName.value else "unnamed_" + IntToString(now)
  }

  /** The check as written: only a file that already exists and canonicalises
      outside the base is refused; a new file is never checked. */
  predicate UploadAllowedAsWritten(canonical: Option<string>, base: string)
    ensures canonical.None? ==> UploadAllowedAsWritten(canonical, base)
    ensures canonical.Some? ==> (UploadAllowedAsWritten(canonical, base) <==> StartsWith(canonical.value, base))
  {
    !(canonical.Some? && !StartsWith(canonical.value, base))
  }

  /** The pieces of "../name". */
  lemma ParentThenNamePieces(name: string)
    requires PlainName(name)
    ensures Normalise(Split(".." + "/" + name, '/')) == [ParentDir, Normal(name)]
  {
    ParentPieces();
    UpThenNamePieces("..", name);
  }

  /** A path that goes up once, a separator, then a plain name. */
  lemma UpThenNamePieces(up: string, name: string)
    requires PlainName(name) && Normalise(Split(up, '/')) == [ParentDir]
    ensures Normalise(Split(up + "/" + name, '/')) == [ParentDir, Normal(name)]
  {
    assert up + "/" + name == up + ['/'] + name;
    SplitAppend(up, name, '/');
    NormaliseAppend(Split(up, '/'), [name]);
    assert [name][1..] == [];
  }

  /** The components of `base.join(".").join("../name")`. */
  lemma UploadUpComponents(base: string, name: string)
    requires base != "" && PlainName(name)
    ensures Components(PathJoin(PathJoin(base, "."), ".." + "/" + name)) == Components(base) + [ParentDir, Normal(name)]
  {
    SplitWithoutSep(".", '/');
    ParentThenNamePieces(name);
    JoinHereThenUp(base, ".", ".." + "/" + name, name);
  }

  lemma JoinHereThenUp(base: string, here: string, file: string, name: string)
    requires base != "" && !IsAbsolute(here) && !IsAbsolute(file)
    requires Normalise(Split(here, '/')) == [] && Normalise(Split(file, '/')) == [ParentDir, Normal(name)]
    ensures Components(PathJoin(PathJoin(base, here), file)) == Components(base) + [ParentDir, Normal(name)]
  {
    JoinTwice(base, here, file);
  }

  /** A new file (one without a canonical form yet) named "../name" is
      accepted by the check as written, and is written beside the base. */
  lemma UploadEscapes(base: string, name: string)
    requires base != "" && PlainName(name)
    requires var cb := Components(base); |cb| >= 1 && cb[|cb| - 1].Normal? && cb[|cb| - 1].name != name
    requires Resolve(Components(base)) == Components(base)
    ensures UploadAllowedAsWritten(None, base)
    ensures var cb := Components(base);
      Resolve(Components(PathJoin(PathJoin(base, "."), ".." + "/" + name))) == cb[..|cb| - 1] + [Normal(name)]
    ensures !(Resolve(Components(base)) <= Resolve(Components(PathJoin(PathJoin(base, "."), ".." + "/" + name))))
  {
    UploadUpComponents(base, name);
    EscapeAfterUp(Components(base), Components(PathJoin(PathJoin(base, "."), ".." + "/" + name)), name);
  }


  /** The corrected check: the upload directory and the file name are
      confined, and an existing file still canonicalises under the base. */
  predicate UploadAllowed(uploadDir: string, fileName: string, canonical: Option<string>, base: string)
    ensures UploadAllowed(uploadDir, fileName, canonical, base) ==> UploadAllowedAsWritten(canonical, base)
    ensures canonical.None? ==> (UploadAllowed(uploadDir, fileName, canonical, base) <==> Confined(uploadDir) && Confined(fileName))
  {
    Confined(uploadDir) && Confined(fileName) && UploadAllowedAsWritten(canonical, base)
  }

  /** The corrected check writes only under the base, and refuses nothing the
      check as written accepts for plain relative names. */
  lemma UploadAllowedStaysInside(base: string, uploadDir: string, fileName: string, canonical: Option<string>)
    requires base != ""
    ensures UploadAllowed(uploadDir, fileName, canonical, base) ==>
      Resolve(Components(base)) <= Resolve(Components(PathJoin(PathJoin(base, uploadDir), fileName)))
    ensures Confined(uploadDir) && Confined(fileName) ==>
      (UploadAllowed(uploadDir, fileName, canonical, base) <==> UploadAllowedAsWritten(canonical, base))
  {
    if Confined(uploadDir) && Confined(fileName) {
      ConfinedJoinStaysInside(base, uploadDir, fileName);
    }
  }

  /** The directory the handler as written hands to `create_dir_all`:
      `base.join(upload_dir)`, before anything about the request is checked. */
  function UploadDirectoryAsWritten(base: string, query: Option<string>): string
  {
    PathJoin(base, RequestedPath(query))
  }

  /** A base joined with a confined path stays under the base once ".." is applied. */
  lemma ConfinedDirectoryInside(base: string, dir: string)
    ensures base != "" && Confined(dir) ==> Resolve(Components(base)) <= Resolve(Components(PathJoin(base, dir)))
  {
    if base != "" && Confined(dir) {
      JoinComponents(base, dir);
      ConfinedNames(dir);
      ResolveNames(Components(base), Normalise(Split(dir, '/')));
    }
  }

  /** The corrected handler creates the upload directory only for a confined
      query path, and then the directory lies under the base. */
  function UploadDirectoryToCreate(base: string, query: Option<string>): (r: Option<string>)
    ensures r.Some? <==> Confined(RequestedPath(query))
    ensures r.Some? ==> r.value == UploadDirectoryAsWritten(base, query)
    ensures base != "" && r.Some? ==> Resolve(Components(base)) <= Resolve(Components(r.value))
  {
    ConfinedDirectoryInside(base, RequestedPath(query));
    if Confined(RequestedPath(query)) then Some(UploadDirectoryAsWritten(base, query)) else None
  }

  /** A query path "../name" makes the handler as written create a directory
      beside the base, whatever happens to the upload afterwards; the
      corrected handler creates nothing for it. */
  lemma UploadDirectoryEscapes(base: string, name: string)
    requires base != "" && PlainName(name)
    requires var cb := Components(base); |cb| >= 1 && cb[|cb| - 1].Normal? && cb[|cb| - 1].name != name
    requires Resolve(Components(base)) == Components(base)
    ensures var cb := Components(base);
      Resolve(Components(UploadDirectoryAsWritten(base, Some(".." + "/" + name)))) == cb[..|cb| - 1] + [Normal(name)]
    ensures !(Resolve(Components(base)) <= Resolve(Components(UploadDirectoryAsWritten(base, Some(".." + "/" + name)))))
    ensures UploadDirectoryToCreate(base, Some(".." + "/" + name)) == None
  {
    var dir := UploadDirectoryAsWritten(base, Some(".." + "/" + name));
    ParentThenNamePieces(name);
    JoinComponents(base, ".." + "/" + name);
    EscapeAfterUp(Components(base), Components(dir), name);
  }

  /** `upload_file_handler` with the corrected check. `mkdirError` is the
      failure of creating the upload directory, `canonicalize` resolves the
      target file, `writeError` is the failure of writing it. Only the first
      field is ever looked at: every branch of the loop returns. */
  function Upload(base: string, query: Option<string>, mkdirError: Option<string>, first: FieldRead, now: int,
                  canonicalize: string -> Option<string>, writeError: Option<string>): (r: Result<UploadResponse, nat>)
    ensures !Confined(RequestedPath(query)) ==> r == Ok(UploadResponse(false, "Invalid file path", None))
    ensures r.Err? ==> r.error == BadRequest && (first.StreamError? || (first.Field? && !first.bodyOk))
    ensures r.Ok? && r.value.success ==>
      first.Field? && first.bodyOk && mkdirError.None? && writeError.None? && r.value.filePath.Some?
  {
    var uploadDir := RequestedPath(query);
    match UploadDirectoryToCreate(base, query)
    case None => Ok(UploadResponse(false, "Invalid file path", None))
    case Some(targetDir) =>
      if mkdirError.Some? then
        Ok(UploadResponse(false, "Failed to create upload directory: " + mkdirError.value, None))
      else
        match first
        case StreamError => Err(BadRequest)
        case NoField => Ok(UploadResponse(false, "No file received", None))
        case Field(fileName, bodyOk) =>
          var name := UploadName(fileName, now);
          var filePath := PathJoin(targetDir, name);
          if !UploadAllowed(uploadDir, name, canonicalize(filePath), base) then
            Ok(UploadResponse(false, "Invalid file path", None))
          else if !bodyOk then Err(BadRequest)
          else if writeError.Some? then Ok(UploadResponse(false, "Failed to save file: " + writeError.value, None))
          else Ok(UploadResponse(true, "File '" + name + "' uploaded successfully", Some(RelativeText(filePath, base))))
  }

  /** An upload succeeds only for a field whose body was read and written, at
      a path that stays under the base once ".." is applied. */
  lemma UploadSucceedsInside(base: string, query: Option<string>, mkdirError: Option<string>, first: FieldRead,
                             now: int, canonicalize: string -> Option<string>, writeError: Option<string>)
    requires base != ""
    ensures var r := Upload(base, query, mkdirError, first, now, canonicalize, writeError);
      r.Ok? && r.value.success ==>
        && first.Field? && first.bodyOk && mkdirError.None? && writeError.None?
        && var filePath := PathJoin(PathJoin(base, RequestedPath(query)), UploadName(first.fileName, now));
           Resolve(Components(base)) <= Resolve(Components(filePath))
    ensures first == NoField && Confined(RequestedPath(query)) && mkdirError.None? ==>
      Upload(base, query, mkdirError, first, now, canonicalize, writeError) == Ok(UploadResponse(false, "No file received", None))
  {
    if first.Field? {
      UploadAllowedStaysInside(base, RequestedPath(query), UploadName(first.fileName, now),
        canonicalize(PathJoin(PathJoin(base, RequestedPath(query)), UploadName(first.fileName, now))));
    }
  }
}
