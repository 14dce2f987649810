/** The file-manager widget (`frontend/src/components/widgets/FileManager.jsx`).

    Paths in the widget are '/'-separated strings relative to the upload base,
    with `""` for the base itself. The widget's state is a `FileManager` object;
    the HTTP calls it makes are appended to `requests`, and the replies arrive
    through `ListingArrived`. The confirmation dialog's answer and the outcome
    of a folder creation are parameters. */
module FileManager {
  import opened Base
  import opened Text
  import opened Models
  import opened Sorting

  /** `currentPath ? `${currentPath}/${name}` : name`. */
  function ChildPath(current: string, name: string): (p: string)
    ensures current == "" ==> p == name
    ensures current != "" ==> p == current + "/" + name
  {
    if current == "" then name else current + "/" + name
  }

  /** Within one directory, different names give different child paths. */
  lemma ChildPathInjective(current: string, a: string, b: string)
    requires ChildPath(current, a) == ChildPath(current, b)
    ensures a == b
  {
    if current != "" {
      var prefix := current + "/";
      assert a == (prefix + a)[|prefix|..];
      assert b == (prefix + b)[|prefix|..];
    }
  }

  /** `currentPath.split('/').slice(0, -1).join('/')`. */
  function ParentPath(current: string): (p: string)
    ensures '/' !in current ==> p == ""
  {
    SplitOfName(current);
    var parts := Split(current, '/');
    Join(parts[..|parts| - 1], '/')
  }

  /** A single name splits into itself. */
  lemma SplitOfName(s: string)
    ensures '/' !in s ==> Split(s, '/') == [s]
  {
    if '/' !in s {
      SplitWithoutSep(s, '/');
    }
  }

  /** Going into a child directory and then to the parent comes back. */
  lemma ParentOfChild(current: string, name: string)
    requires '/' !in name
    ensures ParentPath(ChildPath(current, name)) == current
  {
    if current == "" {
      SplitWithoutSep(name, '/');
    } else {
      assert current + "/" + name == current + ['/'] + name;
      SplitAppend(current, name, '/');
      var parts := Split(current + ['/'] + name, '/');
      assert parts[..|parts| - 1] == Split(current, '/');
      JoinSplit(current, '/');
    }
  }

  /** The target of breadcrumb `i`: the first `i + 1` segments joined by '/'. */
  function Breadcrumbs(current: string): (targets: seq<string>)
    ensures current == "" ==> targets == []
    ensures current != "" ==> |targets| == |Split(current, '/')|
  {
    if current == "" then []
    else
      var parts := Split(current, '/');
      seq(|parts|, i requires 0 <= i < |parts| => Join(parts[..i + 1], '/'))
  }

  /** The last breadcrumb leads to the current directory itself. */
  lemma LastBreadcrumb(current: string)
    requires current != ""
    ensures Breadcrumbs(current)[|Breadcrumbs(current)| - 1] == current
  {
    var parts := Split(current, '/');
    assert parts[..|parts|] == parts;
    JoinSplit(current, '/');
  }

  /** Sorting key comparison: `localeCompare` on names, numeric difference on
      size and modification time; any other key compares names. */
  function KeyCompare(sortBy: string, a: FileInfo, b: FileInfo): (r: int)
    ensures sortBy == "size" ==> (r < 0 <==> a.size < b.size)
    ensures sortBy == "modified" ==> (r < 0 <==> a.modified < b.modified)
    ensures sortBy != "size" && sortBy != "modified" ==> (r == 0 <==> a.name == b.name)
  {
    CompareAntisymmetric(a.name, b.name);
    if sortBy == "size" then a.size - b.size
    else if sortBy == "modified" then a.modified - b.modified
    else Compare(a.name, b.name)
  }

  /** The comparator of `sortFiles`: directories first, then the key, negated
      unless the order is "asc". */
  function FileCompare(sortBy: string, sortOrder: string, a: FileInfo, b: FileInfo): (r: int)
    ensures a.isDir != b.isDir ==> (r < 0 <==> a.isDir)
    ensures a.isDir == b.isDir ==> (r == 0 <==> KeyCompare(sortBy, a, b) == 0)
    ensures a.isDir == b.isDir && sortOrder != "asc" ==> (r < 0 <==> KeyCompare(sortBy, a, b) > 0)
  {
    if a.isDir != b.isDir then (if a.isDir then -1 else 1)
    else
      var c := KeyCompare(sortBy, a, b);
      if sortOrder == "asc" then c else -c
  }

  function FileOrder(sortBy: string, sortOrder: string): (FileInfo, FileInfo) -> int
  {
    (a: FileInfo, b: FileInfo) => FileCompare(sortBy, sortOrder, a, b)
  }

  /** `sortFiles(files)`: a sorted copy; the input is a value and stays as it was. */
  function SortFiles(files: seq<FileInfo>, sortBy: string, sortOrder: string): (r: seq<FileInfo>)
    ensures multiset(r) == multiset(files)
    ensures SortedBy(r, FileOrder(sortBy, sortOrder))
  {
    FileOrderIsPreorder(sortBy, sortOrder);
    SortSorted(files, FileOrder(sortBy, sortOrder));
    Sort(files, FileOrder(sortBy, sortOrder))
  }

  lemma KeyCompareAntisymmetric(sortBy: string, a: FileInfo, b: FileInfo)
    ensures KeyCompare(sortBy, a, b) == -KeyCompare(sortBy, b, a)
  {
    CompareAntisymmetric(a.name, b.name);
  }

  lemma KeyCompareTransitive(sortBy: string, a: FileInfo, b: FileInfo, c: FileInfo)
    requires KeyCompare(sortBy, a, b) <= 0 && KeyCompare(sortBy, b, c) <= 0
    ensures KeyCompare(sortBy, a, c) <= 0
  {
    if sortBy != "size" && sortBy != "modified" {
      CompareTransitive(a.name, b.name, c.name);
    }
  }

  /** The comparator orders file entries consistently, whatever the key and order. */
  lemma FileOrderIsPreorder(sortBy: string, sortOrder: string)
    ensures TotalPreorder(FileOrder(sortBy, sortOrder))
  {
    var cmp := FileOrder(sortBy, sortOrder);
    forall a, b ensures cmp(a, b) <= 0 || cmp(b, a) <= 0 {
      KeyCompareAntisymmetric(sortBy, a, b);
    }
    forall a, b, c | cmp(a, b) <= 0 && cmp(b, c) <= 0 ensures cmp(a, c) <= 0 {
      if a.isDir == b.isDir && b.isDir == c.isDir {
        if sortOrder == "asc" {
          KeyCompareTransitive(sortBy, a, b, c);
        } else {
          KeyCompareAntisymmetric(sortBy, a, b);
          KeyCompareAntisymmetric(sortBy, b, c);
          KeyCompareAntisymmetric(sortBy, a, c);
          KeyCompareTransitive(sortBy, c, b, a);
        }
      }
    }
  }

  /** Within one kind, "desc" is the exact negation of "asc". */
  lemma DescendingNegates(sortBy: string, a: FileInfo, b: FileInfo)
    requires a.isDir == b.isDir
    ensures FileCompare(sortBy, "desc", a, b) == -FileCompare(sortBy, "asc", a, b)
  {
  }

  /** The sorted list holds the same entries, every directory comes before
      every other entry in either order, and entries of one kind follow the key
      in the chosen direction. */
  lemma SortFilesOrder(files: seq<FileInfo>, sortBy: string, sortOrder: string)
    ensures multiset(SortFiles(files, sortBy, sortOrder)) == multiset(files)
    ensures var r := SortFiles(files, sortBy, sortOrder);
      forall i, j :: 0 <= i < j < |r| && r[j].isDir ==> r[i].isDir
    ensures var r := SortFiles(files, sortBy, sortOrder);
      forall i, j :: 0 <= i < j < |r| && r[i].isDir == r[j].isDir ==>
        if sortOrder == "asc" then KeyCompare(sortBy, r[i], r[j]) <= 0
        else KeyCompare(sortBy, r[i], r[j]) >= 0
  {
    FileOrderIsPreorder(sortBy, sortOrder);
    SortSorted(files, FileOrder(sortBy, sortOrder));
    var r := SortFiles(files, sortBy, sortOrder);
    forall i, j | 0 <= i < j < |r| && r[j].isDir ensures r[i].isDir {
      assert FileOrder(sortBy, sortOrder)(r[i], r[j]) <= 0;
    }
    forall i, j | 0 <= i < j < |r| && r[i].isDir == r[j].isDir
      ensures if sortOrder == "asc" then KeyCompare(sortBy, r[i], r[j]) <= 0
        else KeyCompare(sortBy, r[i], r[j]) >= 0
    {
      assert FileOrder(sortBy, sortOrder)(r[i], r[j]) <= 0;
    }
  }

  /** `handleSort(field)`: the same field flips the order; another field
      becomes the key, ascending. Returns the new key and order. */
  function NextSort(sortBy: string, sortOrder: string, field: string): (r: (string, string))
    ensures field != sortBy ==> r == (field, "asc")
    ensures field == sortBy ==> r.0 == sortBy && r.1 != sortOrder && (r.1 == "asc" || r.1 == "desc")
  {
    if sortBy == field then (sortBy, if sortOrder == "asc" then "desc" else "asc")
    else (field, "asc")
  }

  /** Sorting twice by the same field restores the order it started from. */
  lemma NextSortTwice(sortBy: string, sortOrder: string)
    requires sortOrder == "asc" || sortOrder == "desc"
    ensures var (k, o) := NextSort(sortBy, sortOrder, sortBy); NextSort(k, o, sortBy) == (sortBy, sortOrder)
  {
  }

  /** Selecting a file toggles its name in the selection. */
  function Toggle(selected: set<string>, name: string): (r: set<string>)
    ensures name in r <==> name !in selected
    ensures forall n :: n != name ==> (n in r <==> n in selected)
  {
    if name in selected then selected - {name} else selected + {name}
  }

  /** Two clicks on the same file restore the selection. */
  lemma ToggleTwice(selected: set<string>, name: string)
    ensures Toggle(Toggle(selected, name), name) == selected
  {
  }

  /** The HTTP calls the widget makes. */
  datatype Request =
    | ListRequest(path: string)
    | DownloadRequest(path: string)
    | DeleteRequest(path: string)
    | MkdirRequest(path: string, name: string)

  /** The `path` parameter of a listing request: `path || '.'`. */
  function ListParameter(path: string): string
  {
    if path == "" then "." else path
  }

  class FileManager {
    var currentPath: string
    var files: seq<FileInfo>
    var selectedFiles: set<string>
    var sortBy: string
    var sortOrder: string
    var newFolderName: string
    var showNewFolderDialog: bool
    var requests: seq<Request>

    /** The initial state; the first listing is requested on mount. */
    constructor ()
      ensures currentPath == "" && files == [] && selectedFiles == {}
      ensures sortBy == "name" && sortOrder == "asc"
      ensures newFolderName == "" && !showNewFolderDialog
      ensures requests == [ListRequest(".")]
    {
      currentPath, files, selectedFiles := "", [], {};
      sortBy, sortOrder := "name", "asc";
      newFolderName, showNewFolderDialog := "", false;
      requests := [ListRequest(".")];
    }

    /** `loadFiles(path)`: asks for the listing of `path`. */
    method LoadFiles(path: string)
      modifies this`requests
      ensures requests == old(requests) + [ListRequest(ListParameter(path))]
    {
      requests := requests + [ListRequest(ListParameter(path))];
    }

    /** A listing reply: entries and path are taken over, the selection is cleared. */
    method ListingArrived(listing: DirectoryListing)
      modifies this`files, this`currentPath, this`selectedFiles
      ensures files == listing.files && currentPath == listing.path && selectedFiles == {}
    {
      files, currentPath, selectedFiles := listing.files, listing.path, {};
    }

    /** `handleFileClick(file)`: enters a directory, toggles anything else. */
    method HandleFileClick(file: FileInfo)
      modifies this`requests, this`selectedFiles
      ensures file.isDir ==>
        requests == old(requests) + [ListRequest(ListParameter(ChildPath(currentPath, file.name)))]
        && selectedFiles == old(selectedFiles)
      ensures !file.isDir ==>
        selectedFiles == Toggle(old(selectedFiles), file.name) && requests == old(requests)
    {
      if file.isDir {
        LoadFiles(ChildPath(currentPath, file.name));
      } else {
        selectedFiles := Toggle(selectedFiles, file.name);
      }
    }

    /** `handleDownload(file)`: opens the download of the child path. */
    method HandleDownload(file: FileInfo)
      modifies this`requests
      ensures requests == old(requests) + [DownloadRequest(ChildPath(currentPath, file.name))]
    {
      requests := requests + [DownloadRequest(ChildPath(currentPath, file.name))];
    }

    /** `handleDelete()`: nothing without a selection or without confirmation;
        otherwise one delete per selected name, then a reload. */
    method HandleDelete(confirmed: bool)
      modifies this`requests
      ensures selectedFiles == {} || !confirmed ==> requests == old(requests)
      ensures selectedFiles != {} && confirmed ==>
        && |requests| == |old(requests)| + |selectedFiles| + 1
        && requests[..|old(requests)|] == old(requests)
        && requests[|requests| - 1] == ListRequest(ListParameter(currentPath))
        && (forall k :: |old(requests)| <= k < |requests| - 1 ==>
              requests[k].DeleteRequest?
              && exists n :: n in selectedFiles && requests[k].path == ChildPath(currentPath, n))
        && (forall n :: n in selectedFiles ==>
              multiset(requests[|old(requests)|..|requests| - 1])[DeleteRequest(ChildPath(currentPath, n))] == 1)
    {
      if selectedFiles == {} || !confirmed {
        return;
      }
      ghost var start := |requests|;
      var remaining := selectedFiles;
      while remaining != {}
        invariant remaining <= selectedFiles
        invariant |requests| == start + |selectedFiles| - |remaining|
        invariant requests[..start] == old(requests)
        invariant forall k :: start <= k < |requests| ==>
          requests[k].DeleteRequest?
          && exists n :: n in selectedFiles && requests[k].path == ChildPath(currentPath, n)
        invariant forall n :: n in selectedFiles ==>
          multiset(requests[start..])[DeleteRequest(ChildPath(currentPath, n))] == if n in remaining then 0 else 1
        decreases |remaining|
      {
        var name :| name in remaining;
        var request := DeleteRequest(ChildPath(currentPath, name));
        ghost var sent := requests[start..];
        requests := requests + [request];
        assert requests[start..] == sent + [request];
        forall n | n in selectedFiles && n != name
          ensures DeleteRequest(ChildPath(currentPath, n)) != request
        {
          if ChildPath(currentPath, n) == ChildPath(currentPath, name) {
            ChildPathInjective(currentPath, n, name);
          }
        }
        remaining := remaining - {name};
      }
      ghost var sent := requests[start..];
      LoadFiles(currentPath);
      assert requests[start..|requests| - 1] == sent;
    }

    /** `handleCreateFolder()`: nothing for a blank name; otherwise a mkdir of
        the trimmed name, and on success the dialog closes and the list reloads. */
    method HandleCreateFolder(succeeded: bool)
      modifies this`requests, this`showNewFolderDialog, this`newFolderName
      ensures JsTrim(old(newFolderName)) == "" ==>
        requests == old(requests) && newFolderName == old(newFolderName)
        && showNewFolderDialog == old(showNewFolderDialog)
      ensures JsTrim(old(newFolderName)) != "" && !succeeded ==>
        requests == old(requests) + [MkdirRequest(currentPath, JsTrim(old(newFolderName)))]
        && newFolderName == old(newFolderName) && showNewFolderDialog == old(showNewFolderDialog)
      ensures JsTrim(old(newFolderName)) != "" && succeeded ==>
        requests == old(requests) + [MkdirRequest(currentPath, JsTrim(old(newFolderName))),
                                     ListRequest(ListParameter(currentPath))]
        && newFolderName == "" && !showNewFolderDialog
    {
      var name := JsTrim(newFolderName);
      if name == "" {
        return;
      }
      requests := requests + [MkdirRequest(currentPath, name)];
      if succeeded {
        showNewFolderDialog := false;
        newFolderName := "";
        LoadFiles(currentPath);
      }
    }

    /** `navigateToParent()`: asks for the listing of the parent path. */
    method NavigateToParent()
      modifies this`requests
      ensures requests == old(requests) + [ListRequest(ListParameter(ParentPath(currentPath)))]
    {
      LoadFiles(ParentPath(currentPath));
    }

    /** `handleSort(field)`. */
    method HandleSort(field: string)
      modifies this`sortBy, this`sortOrder
      ensures (sortBy, sortOrder) == NextSort(old(sortBy), old(sortOrder), field)
    {
      if sortBy == field {
        sortOrder := if sortOrder == "asc" then "desc" else "asc";
      } else {
        sortBy, sortOrder := field, "asc";
      }
    }
  }
}
