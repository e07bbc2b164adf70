/** The library use cases over the media scan
    (apps/api/src/domain/fileUseCases/FileUseCase.js): the movie table of a
    directory, the series table, and one episode folder of a series named
    "<parent>__<child>". The file API is represented by the listings it
    returns: `loadFiles(folderName)` is the listing of
    `baseLocation/folderName`, and `isDirectory` tells whether a path is a
    directory. */
module FileUseCase {
  import opened Common
  import opened MediaScan

  // ---------------------------------------------------------------------
  // Series folder names

  datatype SeriesFolder = SeriesFolder(parentFolder: string, childFolder: string)

  const InvalidSeriesFolder: string := "Invalid series folderName format. Expected '<parent>__<child>'."

  /** `parseSeriesFolderName`: the first two pieces of
      `String(folderName || "").split("__")`, both required non-empty. */
  function ParseSeriesFolderName(folderName: Option<string>): (r: Result<SeriesFolder>)
    ensures var pieces := Split(OrDefault(folderName, ""), "__");
      && (r.Ok? <==> pieces[0] != "" && |pieces| >= 2 && pieces[1] != "")
      && (r.Ok? ==> r.value == SeriesFolder(pieces[0], pieces[1]))
      && (r.Err? ==> r.message == InvalidSeriesFolder)
  {
    var pieces := Split(OrDefault(folderName, ""), "__");
    var parentFolder := pieces[0];
    var childFolder := PieceAt(pieces, 1);
    if parentFolder == "" || !Truthy(childFolder) then Err(InvalidSeriesFolder)
    else Ok(SeriesFolder(parentFolder, childFolder.value))
  }

  /** Joining a parent and a child with "__" and parsing gives them back,
      when neither contains "__" and the parent does not end in "_". */
  lemma ParseJoinedFolderName(parent: string, child: string)
    requires parent != "" && child != ""
    requires forall i :: i < |parent| ==> !OccursAt(parent + "__", "__", i)
    requires Free(child, "__")
    ensures ParseSeriesFolderName(Some(parent + "__" + child)) == Ok(SeriesFolder(parent, child))
  {
    SplitTwoPieces(parent, "__", child);
  }

  /** Pieces after a second "__" are ignored. */
  lemma ExtraSegmentsIgnored(parent: string, child: string, rest: string)
    requires parent != "" && child != ""
    requires forall i :: i < |parent| ==> !OccursAt(parent + "__", "__", i)
    requires forall i :: i < |child| ==> !OccursAt(child + "__", "__", i)
    ensures ParseSeriesFolderName(Some(parent + "__" + child + "__" + rest)) == Ok(SeriesFolder(parent, child))
  {
    SplitFromPrefix(parent, "__", child + "__" + rest, []);
    assert parent + "__" + child + "__" + rest == parent + "__" + (child + "__" + rest);
    SplitFromPrefix(child, "__", rest, []);
    assert [] + parent == parent;
    assert [] + child == child;
  }

  /** A missing name, an empty one, a name without "__", and a name with an
      empty side are all rejected. */
  lemma MissingPartRejected(name: string)
    requires Free(name, "__")
    ensures ParseSeriesFolderName(None).Err?
    ensures ParseSeriesFolderName(Some(name)).Err?
    ensures name != "" ==> ParseSeriesFolderName(Some("__" + name)).Err?
  {
    SplitFromFree("", "__", []);
    SplitFromFree(name, "__", []);
    assert [] + name == name;
    if name != "" {
      SplitFromPrefix("", "__", name, []);
      assert "__" + name == "" + "__" + name;
    }
  }

  /** Three underscores split after the first character of the run: the
      child keeps the third underscore. */
  lemma TripleUnderscore()
    ensures ParseSeriesFolderName(Some("a___b")) == Ok(SeriesFolder("a", "_b"))
  {
    assert "a___b" == "a" + "__" + "_b";
    forall i | i < |"a"| ensures !OccursAt("a" + "__", "__", i) {
      if 0 <= i {
        assert ("a" + "__")[0..2] == "a_";
      }
    }
    forall i ensures !OccursAt("_b", "__", i) {
      if 0 <= i {
        assert "_b"[0..2] == "_b";
      }
    }
    SplitTwoPieces("a", "__", "_b");
  }

  // ---------------------------------------------------------------------
  // getVideo

  /** `getVideo`: the episode folder `parent/child`, mapped under the child
      name, with `parentId` set to the parent. */
  function GetVideo(folderName: Option<string>, loadFiles: string -> seq<string>, api: MediaApi): (r: Result<Media>)
    ensures r.Ok? <==> ParseSeriesFolderName(folderName).Ok?
    ensures r.Err? ==> r.message == InvalidSeriesFolder
    ensures r.Ok? ==>
      var names := ParseSeriesFolderName(folderName).value;
      && r.value.parentId == Some(names.parentFolder)
      && r.value == api.mapMedia(loadFiles(names.parentFolder + "/" + names.childFolder), names.childFolder, false)
                      .(parentId := Some(names.parentFolder))
  {
    match ParseSeriesFolderName(folderName)
    case Err(e) => Err(e)
    case Ok(names) =>
      var files := loadFiles(names.parentFolder + "/" + names.childFolder);
      Ok(api.mapMedia(files, names.childFolder, false).(parentId := Some(names.parentFolder)))
  }

  /** The series page round trip: the video of "<parent>__<child>" reports
      `parent` as its parent. */
  lemma GetVideoOfJoinedName(parent: string, child: string, loadFiles: string -> seq<string>, api: MediaApi)
    requires parent != "" && child != ""
    requires forall i :: i < |parent| ==> !OccursAt(parent + "__", "__", i)
    requires Free(child, "__")
    ensures var r := GetVideo(Some(parent + "__" + child), loadFiles, api);
      r.Ok? && r.value.parentId == Some(parent)
  {
    ParseJoinedFolderName(parent, child);
  }

  // ---------------------------------------------------------------------
  // getVideos

  /** `getValidFileList`: the valid files of a folder's listing. */
  function ValidFileList(filterValidFiles: seq<string> -> seq<string>, loadFiles: string -> seq<string>): (valid: string -> seq<string>)
    ensures forall folderName :: valid(folderName) == filterValidFiles(loadFiles(folderName))
  {
    folderName => filterValidFiles(loadFiles(folderName))
  }

  /** `getVideos`: the empty table for a missing directory; otherwise the
      folder table, then the flat table checked against it, merged. */
  function GetVideos(
    dirExists: bool, allFolders: seq<string>, entries: seq<DirEntry>,
    loadFiles: string -> seq<string>, filterValidFiles: seq<string> -> seq<string>,
    api: MediaApi, baseLocation: string): (r: Result<MediaTable>)
    ensures !dirExists ==> r == Ok(CreateEmptyTable())
    ensures r.Err? ==> StartsWith(r.message, "Media id collision")
  {
    if !dirExists then Ok(CreateEmptyTable())
    else
      var foldersTable := FolderMedia(allFolders, ValidFileList(filterValidFiles, loadFiles), loadFiles, api);
      match FlatMedia(entries, filterValidFiles, api, foldersTable.byId, baseLocation)
      case Err(e) => Err(e)
      case Ok(flatTable) => Ok(MergeMediaTables(foldersTable, flatTable))
  }

  /** The video files directly in the directory. */
  function TopLevelVideos(entries: seq<DirEntry>, filterValidFiles: seq<string> -> seq<string>, api: MediaApi): seq<string> {
    VideoFiles(filterValidFiles(FileNames(entries)), api.isVideo)
  }

  /** In an existing directory, `getVideos` throws exactly when a flat video's
      id is the name of a folder the folder table kept. */
  lemma GetVideosCollision(
    allFolders: seq<string>, entries: seq<DirEntry>,
    loadFiles: string -> seq<string>, filterValidFiles: seq<string> -> seq<string>,
    api: MediaApi, baseLocation: string)
    ensures var videos := TopLevelVideos(entries, filterValidFiles, api);
      GetVideos(true, allFolders, entries, loadFiles, filterValidFiles, api, baseLocation).Err? <==>
        exists i :: 0 <= i < |videos| &&
          DeriveMediaId(videos[i], api.fileExtEqual) in allFolders &&
          HasMedia(filterValidFiles(loadFiles(DeriveMediaId(videos[i], api.fileExtEqual))), api.isVideo)
  {
    var validFiles := ValidFileList(filterValidFiles, loadFiles);
    var foldersTable := FolderMedia(allFolders, validFiles, loadFiles, api);
    var validTopLevelFiles := filterValidFiles(FileNames(entries));
    var videos := VideoFiles(validTopLevelFiles, api.isVideo);
    FolderMediaKeys(allFolders, validFiles, loadFiles, api);
    FlatTableFailsOnCollision(videos, validTopLevelFiles, api, foldersTable.byId, baseLocation);
    forall i | 0 <= i < |videos|
      ensures DeriveMediaId(videos[i], api.fileExtEqual) in foldersTable.byId <==>
        DeriveMediaId(videos[i], api.fileExtEqual) in allFolders &&
        HasMedia(filterValidFiles(loadFiles(DeriveMediaId(videos[i], api.fileExtEqual))), api.isVideo)
    {
      var id := DeriveMediaId(videos[i], api.fileExtEqual);
      assert validFiles(id) == filterValidFiles(loadFiles(id));
    }
  }

  /** A successful `getVideos` lists the folder ids and then one id per
      top-level video, and no flat entry replaces a folder entry: the keys of
      the two tables are disjoint. */
  lemma GetVideosMergesDisjointTables(
    allFolders: seq<string>, entries: seq<DirEntry>,
    loadFiles: string -> seq<string>, filterValidFiles: seq<string> -> seq<string>,
    api: MediaApi, baseLocation: string)
    ensures var validFiles := ValidFileList(filterValidFiles, loadFiles);
      var foldersTable := FolderMedia(allFolders, validFiles, loadFiles, api);
      var flat := FlatMedia(entries, filterValidFiles, api, foldersTable.byId, baseLocation);
      var r := GetVideos(true, allFolders, entries, loadFiles, filterValidFiles, api, baseLocation);
      r.Ok? ==>
        && flat.Ok?
        && r.value == MergeMediaTables(foldersTable, flat.value)
        && (forall k :: k in foldersTable.byId ==> k !in flat.value.byId)
        && |r.value.allIds| == |foldersTable.allIds| + |TopLevelVideos(entries, filterValidFiles, api)|
  {
    var validFiles := ValidFileList(filterValidFiles, loadFiles);
    var foldersTable := FolderMedia(allFolders, validFiles, loadFiles, api);
    var validTopLevelFiles := filterValidFiles(FileNames(entries));
    var videos := VideoFiles(validTopLevelFiles, api.isVideo);
    FlatTableShape(videos, validTopLevelFiles, api, foldersTable.byId, baseLocation);
    FlatTableFailsOnCollision(videos, validTopLevelFiles, api, foldersTable.byId, baseLocation);
    var flat := FlatMedia(entries, filterValidFiles, api, foldersTable.byId, baseLocation);
    if flat.Ok? {
      forall k | k in flat.value.byId
        ensures k !in foldersTable.byId
      {
        var i :| 0 <= i < |flat.value.allIds| && flat.value.allIds[i] == k;
        assert k == DeriveMediaId(videos[i], api.fileExtEqual);
      }
    }
  }

  method GetVideosOf(
    dirExists: bool, allFolders: seq<string>, entries: seq<DirEntry>,
    loadFiles: string -> seq<string>, filterValidFiles: seq<string> -> seq<string>,
    api: MediaApi, baseLocation: string)
    returns (r: Result<MediaTable>)
    ensures r == GetVideos(dirExists, allFolders, entries, loadFiles, filterValidFiles, api, baseLocation)
  {
    if !dirExists {
      return Ok(CreateEmptyTable());
    }
    var foldersTable := ListFolderMedia(allFolders, ValidFileList(filterValidFiles, loadFiles), loadFiles, api);
    var flatTable := ListFlatMedia(entries, filterValidFiles, api, foldersTable.byId, baseLocation);
    if flatTable.Err? {
      return Err(flatTable.message);
    }
    r := Ok(MergeMediaTables(foldersTable, flatTable.value));
  }

  // ---------------------------------------------------------------------
  // getSeries

  /** `media.fileIds`: the entries of a series folder that are directories. */
  function SubFolders(files: seq<string>, folderPath: string, isDirectory: string -> bool): (r: seq<string>)
    ensures forall f :: f in r <==> f in files && isDirectory(folderPath + "/" + f)
    decreases |files|
  {
    if files == [] then []
    else
      var init, last := files[..|files| - 1], files[|files| - 1];
      assert files == init + [last];
      SubFolders(init, folderPath, isDirectory) + (if isDirectory(folderPath + "/" + last) then [last] else [])
  }

  /** The entry of one series folder. */
  function SeriesEntry(
    folderName: string, baseLocation: string, loadFiles: string -> seq<string>,
    filterValidFiles: seq<string> -> seq<string>, isDirectory: string -> bool, api: MediaApi): (m: Media)
    ensures m.fileIds == Some(SubFolders(loadFiles(folderName), baseLocation + "/" + folderName, isDirectory))
    ensures m.(fileIds := None) == api.mapMedia(filterValidFiles(loadFiles(folderName)), folderName, true).(fileIds := None)
  {
    api.mapMedia(filterValidFiles(loadFiles(folderName)), folderName, true)
      .(fileIds := Some(SubFolders(loadFiles(folderName), baseLocation + "/" + folderName, isDirectory)))
  }

  /** The `reduce` of `getSeries`: every folder, in order, under its own
      name. */
  function SeriesTable(
    folders: seq<string>, baseLocation: string, loadFiles: string -> seq<string>,
    filterValidFiles: seq<string> -> seq<string>, isDirectory: string -> bool, api: MediaApi): (t: MediaTable)
    ensures |t.allIds| == |folders|
    ensures forall f :: f in t.byId ==> f in folders
    decreases |folders|
  {
    if folders == [] then MediaTable(map[], [])
    else
      var prev := SeriesTable(folders[..|folders| - 1], baseLocation, loadFiles, filterValidFiles, isDirectory, api);
      var folderName := folders[|folders| - 1];
      MediaTable(prev.byId[folderName := SeriesEntry(folderName, baseLocation, loadFiles, filterValidFiles, isDirectory, api)],
                 prev.allIds + [folderName])
  }

  /** Unlike the movie table, the series table keeps every folder listed:
      `allIds` is the listing itself, and each entry's `fileIds` are its
      sub-directories. */
  lemma {:induction false} SeriesTableShape(
    folders: seq<string>, baseLocation: string, loadFiles: string -> seq<string>,
    filterValidFiles: seq<string> -> seq<string>, isDirectory: string -> bool, api: MediaApi)
    ensures var t := SeriesTable(folders, baseLocation, loadFiles, filterValidFiles, isDirectory, api);
      && t.allIds == folders
      && (forall f :: f in t.byId <==> f in folders)
      && (forall f :: f in t.byId ==>
            t.byId[f] == SeriesEntry(f, baseLocation, loadFiles, filterValidFiles, isDirectory, api) &&
            t.byId[f].fileIds == Some(SubFolders(loadFiles(f), baseLocation + "/" + f, isDirectory)))
    decreases |folders|
  {
    if folders != [] {
      var init, last := folders[..|folders| - 1], folders[|folders| - 1];
      SeriesTableShape(init, baseLocation, loadFiles, filterValidFiles, isDirectory, api);
      assert folders == init + [last];
      var prev := SeriesTable(init, baseLocation, loadFiles, filterValidFiles, isDirectory, api);
      var t := SeriesTable(folders, baseLocation, loadFiles, filterValidFiles, isDirectory, api);
      assert t.byId == prev.byId[last := SeriesEntry(last, baseLocation, loadFiles, filterValidFiles, isDirectory, api)];
      assert forall f :: f in folders <==> f in init || f == last;
      assert t.allIds == prev.allIds + [last];
      forall f | f in t.byId
        ensures t.byId[f] == SeriesEntry(f, baseLocation, loadFiles, filterValidFiles, isDirectory, api)
      {
        if f != last {
          assert f in prev.byId && t.byId[f] == prev.byId[f];
        }
      }
    }
  }

  method GetSeries(
    allFolders: seq<string>, baseLocation: string, loadFiles: string -> seq<string>,
    filterValidFiles: seq<string> -> seq<string>, isDirectory: string -> bool, api: MediaApi)
    returns (table: MediaTable)
    ensures table == SeriesTable(allFolders, baseLocation, loadFiles, filterValidFiles, isDirectory, api)
  {
    table := MediaTable(map[], []);
    for i := 0 to |allFolders|
      invariant table == SeriesTable(allFolders[..i], baseLocation, loadFiles, filterValidFiles, isDirectory, api)
    {
      var folderName := allFolders[i];
      assert allFolders[..i + 1][..i] == allFolders[..i];
      var files := filterValidFiles(loadFiles(folderName));
      var media := api.mapMedia(files, folderName, true);
      var fileIds := DirectoryEntries(loadFiles(folderName), baseLocation + "/" + folderName, isDirectory);
      media := media.(fileIds := Some(fileIds));
      table := MediaTable(table.byId[folderName := media], table.allIds + [folderName]);
    }
    assert allFolders[..|allFolders|] == allFolders;
  }

  /** The `fileIds` filter as a loop. */
  method DirectoryEntries(files: seq<string>, folderPath: string, isDirectory: string -> bool) returns (r: seq<string>)
    ensures r == SubFolders(files, folderPath, isDirectory)
  {
    r := [];
    for i := 0 to |files|
      invariant r == SubFolders(files[..i], folderPath, isDirectory)
    {
      assert files[..i + 1][..i] == files[..i];
      if isDirectory(folderPath + "/" + files[i]) {
        r := r + [files[i]];
      }
    }
    assert files[..|files|] == files;
  }
}
