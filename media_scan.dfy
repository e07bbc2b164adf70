/** Building the media table of a library directory
    (apps/api/src/domain/fileUseCases/MediaScanUtil.js). A table maps ids to
    media entries and lists the ids in order. Folder-based media come from
    the sub-directories holding a video; flat media from the video files
    lying directly in the directory, each grouped with its sibling files.
    Directory listings are values, and the helpers the scan is handed
    (`fileExtEqual`, `isThereVideoFile`, `mapMedia`, the valid-file filters)
    are functions. */
module MediaScan {
  import opened Common

  /** A media entry: what `mapMedia` builds (its id and other attributes),
      and the three fields the scans assign afterwards. */
  datatype Media = Media(
    id: string,
    attributes: map<string, string>,
    isFlat: bool,
    parentId: Option<string>,
    fileIds: Option<seq<string>>)

  /** `{ byId, allIds }` */
  datatype MediaTable = MediaTable(byId: map<string, Media>, allIds: seq<string>)

  /** The helpers shared by the scans: the extension of a file name, whether
      a file name is a video, and `mapMedia({ files, folderName, isFolder })`. */
  datatype MediaApi = MediaApi(
    fileExtEqual: string -> string,
    isVideo: string -> bool,
    mapMedia: (seq<string>, string, bool) -> Media)

  /** `createEmptyTable`: a table with no entries and no ids. */
  function CreateEmptyTable(): (t: MediaTable)
    ensures forall id :: id !in t.byId
    ensures |t.allIds| == 0
  {
    MediaTable(map[], [])
  }

  // ---------------------------------------------------------------------
  // Ids

  /** `s.slice(0, end)`: a negative `end` counts back from the end of the
      string and stops at 0; an `end` past the string stops at its length. */
  function SliceTo(s: string, end: int): (r: string)
    ensures StartsWith(s, r)
    ensures 0 <= end <= |s| ==> |r| == end
    ensures end < 0 ==> |r| == if |s| + end < 0 then 0 else |s| + end
  {
    var e := if end < 0 then (if |s| + end < 0 then 0 else |s| + end) else if end > |s| then |s| else end;
    s[..e]
  }

  /** `deriveMediaId`: the name with as many characters dropped from its end
      as the extension has. */
  function DeriveMediaId(videoName: string, fileExtEqual: string -> string): (id: string)
    ensures StartsWith(videoName, id)
    ensures EndsWith(videoName, fileExtEqual(videoName)) ==> id + fileExtEqual(videoName) == videoName
  {
    var ext := fileExtEqual(videoName);
    var id := SliceTo(videoName, |videoName| - |ext|);
    assert EndsWith(videoName, ext) ==> id + ext == videoName by {
      if EndsWith(videoName, ext) {
        assert videoName == videoName[..|videoName| - |ext|] + videoName[|videoName| - |ext|..];
      }
    }
    id
  }

  /** An extension longer than the name makes the slice end negative, so it
      counts back from the end of the name instead of giving "". */
  lemma OverlongExtension(videoName: string, fileExtEqual: string -> string)
    requires |videoName| < |fileExtEqual(videoName)| <= 2 * |videoName|
    ensures |DeriveMediaId(videoName, fileExtEqual)| == 2 * |videoName| - |fileExtEqual(videoName)|
  {
  }

  /** The collision error's text: it names the id and the scanned location. */
  function CollisionMessage(id: string, baseLocation: string): (m: string)
    ensures StartsWith(m, "Media id collision for '" + id)
    ensures EndsWith(m, baseLocation + ".")
  {
    var head := "Media id collision for '" + id;
    var m := head + "': both folder-based and flat files exist under " + baseLocation + ".";
    assert m[..|head|] == head;
    assert m[|m| - |baseLocation + "."|..] == baseLocation + ".";
    m
  }

  /** `assertNoIdCollision`: the error thrown, if any. Every stored entry is
      an object, so `existingById[id]` is truthy for every stored id; the
      names `Object.prototype` supplies (such as "constructor") are not
      modelled as entries. */
  function AssertNoIdCollision(id: string, baseLocation: string, existingById: map<string, Media>): (r: Option<string>)
    ensures r.Some? <==> id in existingById
    ensures r.Some? ==> StartsWith(r.value, "Media id collision")
  {
    if id in existingById then
      var msg := CollisionMessage(id, baseLocation);
      assert msg == "Media id collision" + msg[18..];
      Some(msg)
    else None
  }

  // ---------------------------------------------------------------------
  // Folder-based media

  /** `hasValidFiles` and `hasVideoInFolder`. */
  predicate HasMedia(files: seq<string>, isVideo: string -> bool)
    ensures HasMedia(files, isVideo) <==> exists f :: f in files && isVideo(f)
  {
    |files| > 0 && exists i :: 0 <= i < |files| && isVideo(files[i])
  }

  /** `allFolders.filter(hasValidFiles).filter(hasVideoInFolder)`. */
  function SelectFolders(folders: seq<string>, validFiles: string -> seq<string>, isVideo: string -> bool): (r: seq<string>)
    ensures forall f :: f in r <==> f in folders && HasMedia(validFiles(f), isVideo)
    ensures |r| <= |folders|
    decreases |folders|
  {
    if folders == [] then []
    else
      var init, last := folders[..|folders| - 1], folders[|folders| - 1];
      assert folders == init + [last];
      SelectFolders(init, validFiles, isVideo) + (if HasMedia(validFiles(last), isVideo) then [last] else [])
  }

  /** The selection keeps the listing order: it distributes over
      concatenation. */
  lemma {:induction false} SelectFoldersAppend(a: seq<string>, b: seq<string>, validFiles: string -> seq<string>, isVideo: string -> bool)
    ensures SelectFolders(a + b, validFiles, isVideo) == SelectFolders(a, validFiles, isVideo) + SelectFolders(b, validFiles, isVideo)
    decreases |b|
  {
    if b == [] {
      assert a + b == a;
    } else {
      var init, last := b[..|b| - 1], b[|b| - 1];
      var tail := if HasMedia(validFiles(last), isVideo) then [last] else [];
      assert b == init + [last];
      assert a + b == (a + init) + [last];
      calc {
        SelectFolders(a + b, validFiles, isVideo);
        { SelectFoldersSnoc(a + init, last, validFiles, isVideo); }
        SelectFolders(a + init, validFiles, isVideo) + tail;
        { SelectFoldersAppend(a, init, validFiles, isVideo); }
        (SelectFolders(a, validFiles, isVideo) + SelectFolders(init, validFiles, isVideo)) + tail;
        SelectFolders(a, validFiles, isVideo) + (SelectFolders(init, validFiles, isVideo) + tail);
        { SelectFoldersSnoc(init, last, validFiles, isVideo); }
        SelectFolders(a, validFiles, isVideo) + SelectFolders(b, validFiles, isVideo);
      }
    }
  }

  lemma SelectFoldersSnoc(xs: seq<string>, x: string, validFiles: string -> seq<string>, isVideo: string -> bool)
    ensures SelectFolders(xs + [x], validFiles, isVideo) ==
      SelectFolders(xs, validFiles, isVideo) + (if HasMedia(validFiles(x), isVideo) then [x] else [])
  {
    assert (xs + [x])[..|xs|] == xs;
  }

  /** `buildFolderTable`: the entry is stored under the folder name, and the
      id listed is the one `mapMedia` gave it. */
  function FolderStep(t: MediaTable, folderName: string, loadFiles: string -> seq<string>, api: MediaApi): (r: MediaTable)
    ensures r.byId.Keys == t.byId.Keys + {folderName}
    ensures r.byId[folderName] == api.mapMedia(loadFiles(folderName), folderName, false)
    ensures forall f :: f in t.byId && f != folderName ==> r.byId[f] == t.byId[f]
    ensures |r.allIds| == |t.allIds| + 1 && r.allIds[..|t.allIds|] == t.allIds
    ensures r.allIds[|t.allIds|] == r.byId[folderName].id
  {
    var media := api.mapMedia(loadFiles(folderName), folderName, false);
    MediaTable(t.byId[folderName := media], t.allIds + [media.id])
  }

  function BuildFolderTable(selected: seq<string>, loadFiles: string -> seq<string>, api: MediaApi): (t: MediaTable)
    ensures |t.allIds| == |selected|
    ensures forall i :: 0 <= i < |selected| ==> t.allIds[i] == api.mapMedia(loadFiles(selected[i]), selected[i], false).id
    ensures forall f :: f in t.byId <==> f in selected
    ensures forall f :: f in t.byId ==> t.byId[f] == api.mapMedia(loadFiles(f), f, false)
    decreases |selected|
  {
    if selected == [] then CreateEmptyTable()
    else
      var init, last := selected[..|selected| - 1], selected[|selected| - 1];
      assert selected == init + [last];
      var prev := BuildFolderTable(init, loadFiles, api);
      var r := FolderStep(prev, last, loadFiles, api);
      forall i | 0 <= i < |selected|
        ensures r.allIds[i] == api.mapMedia(loadFiles(selected[i]), selected[i], false).id
      {
        if i < |init| {
          assert selected[i] == init[i] && r.allIds[i] == prev.allIds[i];
        }
      }
      assert forall f :: f in selected <==> f in init || f == last;
      assert forall f :: f in r.byId <==> f in prev.byId || f == last;
      assert forall f :: f in r.byId ==> r.byId[f] == (if f == last then api.mapMedia(loadFiles(f), f, false) else prev.byId[f]);
      r
  }

  /** What `listFolderMedia` returns for the folders `getFolderName` lists. */
  function FolderMedia(allFolders: seq<string>, validFiles: string -> seq<string>, loadFiles: string -> seq<string>, api: MediaApi): (t: MediaTable)
    ensures forall f :: f in t.byId <==> f in allFolders && HasMedia(validFiles(f), api.isVideo)
    ensures forall f :: f in t.byId ==> t.byId[f] == api.mapMedia(loadFiles(f), f, false)
  {
    BuildFolderTable(SelectFolders(allFolders, validFiles, api.isVideo), loadFiles, api)
  }

  /** The folder table holds exactly the folders with a valid video file. */
  lemma FolderMediaKeys(allFolders: seq<string>, validFiles: string -> seq<string>, loadFiles: string -> seq<string>, api: MediaApi)
    ensures var t := FolderMedia(allFolders, validFiles, loadFiles, api);
      forall f :: f in t.byId <==> f in allFolders && HasMedia(validFiles(f), api.isVideo)
  {
  }

  method ListFolderMedia(
    allFolders: seq<string>, validFiles: string -> seq<string>, loadFiles: string -> seq<string>, api: MediaApi)
    returns (table: MediaTable)
    ensures table == FolderMedia(allFolders, validFiles, loadFiles, api)
  {
    var validFilesByFolder := ValidFilesByFolder(allFolders, validFiles);
    var selected := FoldersWithMedia(allFolders, validFilesByFolder, validFiles, api.isVideo);
    table := ReduceFolderTable(selected, loadFiles, api);
  }

  /** The `validFilesByFolder` map: each folder's valid files, computed once. */
  method ValidFilesByFolder(allFolders: seq<string>, validFiles: string -> seq<string>)
    returns (m: map<string, seq<string>>)
    ensures forall f :: f in m <==> f in allFolders
    ensures forall f :: f in m ==> m[f] == validFiles(f)
  {
    m := map[];
    for i := 0 to |allFolders|
      invariant forall f :: f in m <==> f in allFolders[..i]
      invariant forall f :: f in m ==> m[f] == validFiles(f)
    {
      assert allFolders[..i + 1] == allFolders[..i] + [allFolders[i]];
      m := m[allFolders[i] := validFiles(allFolders[i])];
    }
    assert allFolders[..|allFolders|] == allFolders;
  }

  /** The two filters, reading the files from the map. */
  method FoldersWithMedia(
    allFolders: seq<string>, m: map<string, seq<string>>, validFiles: string -> seq<string>, isVideo: string -> bool)
    returns (selected: seq<string>)
    requires forall f :: f in allFolders ==> f in m && m[f] == validFiles(f)
    ensures selected == SelectFolders(allFolders, validFiles, isVideo)
  {
    selected := [];
    for i := 0 to |allFolders|
      invariant selected == SelectFolders(allFolders[..i], validFiles, isVideo)
    {
      var folderName := allFolders[i];
      assert allFolders[..i + 1][..i] == allFolders[..i];
      var files := m[folderName];
      if |files| > 0 && exists j :: 0 <= j < |files| && isVideo(files[j]) {
        selected := selected + [folderName];
      }
    }
    assert allFolders[..|allFolders|] == allFolders;
  }

  /** The `reduce` that builds the folder table. */
  method ReduceFolderTable(selected: seq<string>, loadFiles: string -> seq<string>, api: MediaApi)
    returns (table: MediaTable)
    ensures table == BuildFolderTable(selected, loadFiles, api)
  {
    table := CreateEmptyTable();
    for i := 0 to |selected|
      invariant table == BuildFolderTable(selected[..i], loadFiles, api)
    {
      assert selected[..i + 1][..i] == selected[..i];
      var media := api.mapMedia(loadFiles(selected[i]), selected[i], false);
      table := MediaTable(table.byId[selected[i] := media], table.allIds + [media.id]);
    }
    assert selected[..|selected|] == selected;
  }

  // ---------------------------------------------------------------------
  // Flat media

  /** A directory entry (`Dirent`). */
  datatype DirEntry = DirEntry(name: string, isDirectory: bool)

  /** `.filter((item) => !item.isDirectory()).map((item) => item.name)` */
  function FileNames(entries: seq<DirEntry>): (r: seq<string>)
    ensures forall n :: n in r <==> exists e :: e in entries && !e.isDirectory && e.name == n
    decreases |entries|
  {
    if entries == [] then []
    else
      var init, last := entries[..|entries| - 1], entries[|entries| - 1];
      assert entries == init + [last];
      FileNames(init) + (if last.isDirectory then [] else [last.name])
  }

  /** `.filter((fileName) => isThereVideoFile(fileName, fileExtEqual))` */
  function VideoFiles(files: seq<string>, isVideo: string -> bool): (r: seq<string>)
    ensures forall f :: f in r <==> f in files && isVideo(f)
    decreases |files|
  {
    if files == [] then []
    else
      var init, last := files[..|files| - 1], files[|files| - 1];
      assert files == init + [last];
      VideoFiles(init, isVideo) + (if isVideo(last) then [last] else [])
  }

  /** `.filter((fileName) => fileName.startsWith(`${id}.`))` */
  function Siblings(files: seq<string>, id: string): (r: seq<string>)
    ensures forall f :: f in r <==> f in files && StartsWith(f, id + ".")
    decreases |files|
  {
    if files == [] then []
    else
      var init, last := files[..|files| - 1], files[|files| - 1];
      assert files == init + [last];
      Siblings(init, id) + (if StartsWith(last, id + ".") then [last] else [])
  }

  /** The entry a flat video gets: `mapMedia` over its siblings, marked flat. */
  function FlatEntry(validFiles: seq<string>, id: string, api: MediaApi): (m: Media)
    ensures m.isFlat
    ensures m.(isFlat := false) == api.mapMedia(Siblings(validFiles, id), id, false).(isFlat := false)
  {
    api.mapMedia(Siblings(validFiles, id), id, false).(isFlat := true)
  }

  /** One step of the `reduce`: the collision check, then the entry stored
      and its id listed. */
  function FlatStep(
    t: MediaTable, videoName: string, validFiles: seq<string>, api: MediaApi,
    existingById: map<string, Media>, baseLocation: string): (r: Result<MediaTable>)
    ensures var id := DeriveMediaId(videoName, api.fileExtEqual);
      && (r.Err? <==> id in existingById)
      && (r.Err? ==> r.message == CollisionMessage(id, baseLocation))
      && (r.Ok? ==>
            && r.value.byId == t.byId[id := FlatEntry(validFiles, id, api)]
            && r.value.allIds == t.allIds + [id])
  {
    var id := DeriveMediaId(videoName, api.fileExtEqual);
    match AssertNoIdCollision(id, baseLocation, existingById)
    case Some(msg) => Err(msg)
    case None => Ok(MediaTable(t.byId[id := FlatEntry(validFiles, id, api)], t.allIds + [id]))
  }

  /** The `reduce` over the video files: the first colliding id throws. Only
      the folder table is consulted, so two videos with the same id are both
      listed. */
  function BuildFlatTable(
    videos: seq<string>, validFiles: seq<string>, api: MediaApi,
    existingById: map<string, Media>, baseLocation: string): (r: Result<MediaTable>)
    ensures r.Err? ==> StartsWith(r.message, "Media id collision")
    decreases |videos|
  {
    if videos == [] then Ok(CreateEmptyTable())
    else
      var prev := BuildFlatTable(videos[..|videos| - 1], validFiles, api, existingById, baseLocation);
      if prev.Err? then prev
      else FlatStep(prev.value, videos[|videos| - 1], validFiles, api, existingById, baseLocation)
  }

  /** A flat table lists the derived id of every video in order, stores an
      entry for exactly the listed ids, and each entry is the flat entry of
      its id. */
  lemma FlatTableShape(
    videos: seq<string>, validFiles: seq<string>, api: MediaApi,
    existingById: map<string, Media>, baseLocation: string)
    ensures var r := BuildFlatTable(videos, validFiles, api, existingById, baseLocation);
      r.Ok? ==>
        && |r.value.allIds| == |videos|
        && (forall i :: 0 <= i < |videos| ==> r.value.allIds[i] == DeriveMediaId(videos[i], api.fileExtEqual))
        && (forall id :: id in r.value.byId <==> id in r.value.allIds)
        && (forall id :: id in r.value.byId ==> r.value.byId[id] == FlatEntry(validFiles, id, api))
  {
    FlatTableIds(videos, validFiles, api, existingById, baseLocation);
    FlatTableEntries(videos, validFiles, api, existingById, baseLocation);
  }

  lemma {:induction false} FlatTableIds(
    videos: seq<string>, validFiles: seq<string>, api: MediaApi,
    existingById: map<string, Media>, baseLocation: string)
    ensures var r := BuildFlatTable(videos, validFiles, api, existingById, baseLocation);
      r.Ok? ==>
        && |r.value.allIds| == |videos|
        && (forall i :: 0 <= i < |videos| ==> r.value.allIds[i] == DeriveMediaId(videos[i], api.fileExtEqual))
    decreases |videos|
  {
    if videos != [] {
      var init := videos[..|videos| - 1];
      FlatTableIds(init, validFiles, api, existingById, baseLocation);
      var prev := BuildFlatTable(init, validFiles, api, existingById, baseLocation);
      var r := BuildFlatTable(videos, validFiles, api, existingById, baseLocation);
      if r.Ok? {
        var id := DeriveMediaId(videos[|videos| - 1], api.fileExtEqual);
        assert prev.Ok? && r.value.allIds == prev.value.allIds + [id];
        assert forall i :: 0 <= i < |init| ==> init[i] == videos[i];
      }
    }
  }

  lemma {:induction false} FlatTableEntries(
    videos: seq<string>, validFiles: seq<string>, api: MediaApi,
    existingById: map<string, Media>, baseLocation: string)
    ensures var r := BuildFlatTable(videos, validFiles, api, existingById, baseLocation);
      r.Ok? ==>
        && (forall id :: id in r.value.byId <==> id in r.value.allIds)
        && (forall id :: id in r.value.byId ==> r.value.byId[id] == FlatEntry(validFiles, id, api))
    decreases |videos|
  {
    if videos != [] {
      var init := videos[..|videos| - 1];
      FlatTableEntries(init, validFiles, api, existingById, baseLocation);
      var prev := BuildFlatTable(init, validFiles, api, existingById, baseLocation);
      var r := BuildFlatTable(videos, validFiles, api, existingById, baseLocation);
      if r.Ok? {
        var id := DeriveMediaId(videos[|videos| - 1], api.fileExtEqual);
        assert prev.Ok?;
        assert r.value == MediaTable(prev.value.byId[id := FlatEntry(validFiles, id, api)], prev.value.allIds + [id]);
      }
    }
  }

  /** The flat scan throws exactly when some video's id names a folder
      entry. */
  lemma {:induction false} FlatTableFailsOnCollision(
    videos: seq<string>, validFiles: seq<string>, api: MediaApi,
    existingById: map<string, Media>, baseLocation: string)
    ensures BuildFlatTable(videos, validFiles, api, existingById, baseLocation).Err? <==>
      exists i :: 0 <= i < |videos| && DeriveMediaId(videos[i], api.fileExtEqual) in existingById
    decreases |videos|
  {
    if videos != [] {
      var init := videos[..|videos| - 1];
      FlatTableFailsOnCollision(init, validFiles, api, existingById, baseLocation);
      assert forall i :: 0 <= i < |init| ==> init[i] == videos[i];
      if exists i :: 0 <= i < |videos| && DeriveMediaId(videos[i], api.fileExtEqual) in existingById {
        var i :| 0 <= i < |videos| && DeriveMediaId(videos[i], api.fileExtEqual) in existingById;
        if i < |init| {
          assert DeriveMediaId(init[i], api.fileExtEqual) in existingById;
        }
      }
    }
  }

  /** What `listFlatMedia` returns for the entries `readDirectory` lists. */
  function FlatMedia(
    entries: seq<DirEntry>, filterValidFiles: seq<string> -> seq<string>, api: MediaApi,
    existingById: map<string, Media>, baseLocation: string): (r: Result<MediaTable>)
    ensures r.Err? <==>
      exists v :: v in VideoFiles(filterValidFiles(FileNames(entries)), api.isVideo) && DeriveMediaId(v, api.fileExtEqual) in existingById
    ensures var valid := filterValidFiles(FileNames(entries));
      && (r.Ok? ==> forall id :: id in r.value.byId <==> id in r.value.allIds)
      && (r.Ok? ==> forall id :: id in r.value.byId ==> r.value.byId[id] == FlatEntry(valid, id, api))
  {
    var validTopLevelFiles := filterValidFiles(FileNames(entries));
    var videos := VideoFiles(validTopLevelFiles, api.isVideo);
    FlatTableFailsOnCollision(videos, validTopLevelFiles, api, existingById, baseLocation);
    FlatTableShape(videos, validTopLevelFiles, api, existingById, baseLocation);
    var r := BuildFlatTable(videos, validTopLevelFiles, api, existingById, baseLocation);
    assert r.Err? <==> exists i :: 0 <= i < |videos| && DeriveMediaId(videos[i], api.fileExtEqual) in existingById;
    assert (exists i :: 0 <= i < |videos| && DeriveMediaId(videos[i], api.fileExtEqual) in existingById) <==>
      exists v :: v in videos && DeriveMediaId(v, api.fileExtEqual) in existingById;
    r
  }

  /** Every flat entry is marked flat, is stored under its derived id, and
      groups the valid top-level files that start with that id and a dot. */
  lemma FlatEntriesAreFlat(
    entries: seq<DirEntry>, filterValidFiles: seq<string> -> seq<string>, api: MediaApi,
    existingById: map<string, Media>, baseLocation: string)
    ensures var r := FlatMedia(entries, filterValidFiles, api, existingById, baseLocation);
      r.Ok? ==> forall id :: id in r.value.byId ==>
        && r.value.byId[id].isFlat
        && r.value.byId[id] == api.mapMedia(Siblings(filterValidFiles(FileNames(entries)), id), id, false).(isFlat := true)
  {
    var validTopLevelFiles := filterValidFiles(FileNames(entries));
    FlatTableShape(VideoFiles(validTopLevelFiles, api.isVideo), validTopLevelFiles, api, existingById, baseLocation);
  }

  /** Two video files with the same derived id ("A.mp4" and "A.mkv") are
      both listed, and share one entry. */
  lemma RepeatedFlatIdListedTwice(
    v1: string, v2: string, validFiles: seq<string>, api: MediaApi, existingById: map<string, Media>, baseLocation: string)
    requires DeriveMediaId(v1, api.fileExtEqual) == DeriveMediaId(v2, api.fileExtEqual)
    requires DeriveMediaId(v1, api.fileExtEqual) !in existingById
    ensures var r := BuildFlatTable([v1, v2], validFiles, api, existingById, baseLocation);
      var id := DeriveMediaId(v1, api.fileExtEqual);
      r.Ok? && r.value.allIds == [id, id] && r.value.byId == map[id := FlatEntry(validFiles, id, api)]
  {
    var id := DeriveMediaId(v1, api.fileExtEqual);
    var e := FlatEntry(validFiles, id, api);
    assert [v1, v2][..1] == [v1];
    assert [v1][..0] == [];
    assert BuildFlatTable([], validFiles, api, existingById, baseLocation) == Ok(MediaTable(map[], []));
    assert AssertNoIdCollision(id, baseLocation, existingById) == None;
    assert [] + [id] == [id];
    assert FlatStep(MediaTable(map[], []), v1, validFiles, api, existingById, baseLocation) == Ok(MediaTable(map[id := e], [id]));
    assert BuildFlatTable([v1], validFiles, api, existingById, baseLocation) == Ok(MediaTable(map[id := e], [id]));
    assert map[id := e][id := e] == map[id := e];
  }

  method ListFlatMedia(
    entries: seq<DirEntry>, filterValidFiles: seq<string> -> seq<string>, api: MediaApi,
    existingById: map<string, Media>, baseLocation: string)
    returns (r: Result<MediaTable>)
    ensures r == FlatMedia(entries, filterValidFiles, api, existingById, baseLocation)
  {
    var topLevelFiles := TopLevelFiles(entries);
    var validTopLevelFiles := filterValidFiles(topLevelFiles);
    var topLevelVideoFiles := FilterVideos(validTopLevelFiles, api.isVideo);
    r := ReduceFlatTable(topLevelVideoFiles, validTopLevelFiles, api, existingById, baseLocation);
  }

  method TopLevelFiles(entries: seq<DirEntry>) returns (names: seq<string>)
    ensures names == FileNames(entries)
  {
    names := [];
    for i := 0 to |entries|
      invariant names == FileNames(entries[..i])
    {
      assert entries[..i + 1][..i] == entries[..i];
      if !entries[i].isDirectory {
        names := names + [entries[i].name];
      }
    }
    assert entries[..|entries|] == entries;
  }

  method FilterVideos(files: seq<string>, isVideo: string -> bool) returns (videos: seq<string>)
    ensures videos == VideoFiles(files, isVideo)
  {
    videos := [];
    for i := 0 to |files|
      invariant videos == VideoFiles(files[..i], isVideo)
    {
      assert files[..i + 1][..i] == files[..i];
      if isVideo(files[i]) {
        videos := videos + [files[i]];
      }
    }
    assert files[..|files|] == files;
  }

  /** The `reduce` of `listFlatMedia`, stopping at the first collision. */
  method ReduceFlatTable(
    videos: seq<string>, validFiles: seq<string>, api: MediaApi,
    existingById: map<string, Media>, baseLocation: string)
    returns (r: Result<MediaTable>)
    ensures r == BuildFlatTable(videos, validFiles, api, existingById, baseLocation)
  {
    var flatTable := CreateEmptyTable();
    for i := 0 to |videos|
      invariant BuildFlatTable(videos[..i], validFiles, api, existingById, baseLocation) == Ok(flatTable)
    {
      var videoName := videos[i];
      assert videos[..i + 1][..i] == videos[..i];
      assert videos[..i + 1][i] == videoName;
      var id := DeriveMediaId(videoName, api.fileExtEqual);
      var collision := AssertNoIdCollision(id, baseLocation, existingById);
      if collision.Some? {
        BuildFlatTableStops(videos, i + 1, validFiles, api, existingById, baseLocation);
        return Err(collision.value);
      }
      var siblingFiles := SiblingFiles(validFiles, id);
      var media := api.mapMedia(siblingFiles, id, false);
      media := media.(isFlat := true);
      flatTable := MediaTable(flatTable.byId[id := media], flatTable.allIds + [id]);
    }
    assert videos[..|videos|] == videos;
    r := Ok(flatTable);
  }

  /** Once a prefix of the videos throws, so does the whole list. */
  lemma {:induction false} BuildFlatTableStops(
    videos: seq<string>, n: nat, validFiles: seq<string>, api: MediaApi,
    existingById: map<string, Media>, baseLocation: string)
    requires n <= |videos|
    requires BuildFlatTable(videos[..n], validFiles, api, existingById, baseLocation).Err?
    ensures BuildFlatTable(videos, validFiles, api, existingById, baseLocation) ==
      BuildFlatTable(videos[..n], validFiles, api, existingById, baseLocation)
    decreases |videos| - n
  {
    if n == |videos| {
      assert videos[..n] == videos;
    } else {
      assert videos[..|videos| - 1][..n] == videos[..n];
      BuildFlatTableStops(videos[..|videos| - 1], n, validFiles, api, existingById, baseLocation);
    }
  }

  /** The sibling filter as a loop. */
  method SiblingFiles(files: seq<string>, id: string) returns (r: seq<string>)
    ensures r == Siblings(files, id)
  {
    r := [];
    for i := 0 to |files|
      invariant r == Siblings(files[..i], id)
    {
      assert files[..i + 1][..i] == files[..i];
      if StartsWith(files[i], id + ".") {
        r := r + [files[i]];
      }
    }
    assert files[..|files|] == files;
  }

  // ---------------------------------------------------------------------
  // Merging

  /** `mergeMediaTables`: the ids of both tables in order, and the entries of
      both, the flat one winning on a shared id. */
  function MergeMediaTables(folderTable: MediaTable, flatTable: MediaTable): (t: MediaTable)
    ensures t.allIds == folderTable.allIds + flatTable.allIds
    ensures forall k :: k in t.byId <==> k in folderTable.byId || k in flatTable.byId
    ensures forall k :: k in flatTable.byId ==> t.byId[k] == flatTable.byId[k]
    ensures forall k :: k in folderTable.byId && k !in flatTable.byId ==> t.byId[k] == folderTable.byId[k]
  {
    MediaTable(folderTable.byId + flatTable.byId, folderTable.allIds + flatTable.allIds)
  }

  /** The empty table is neutral for merging. */
  lemma MergeWithEmpty(t: MediaTable)
    ensures MergeMediaTables(t, CreateEmptyTable()) == t
    ensures MergeMediaTables(CreateEmptyTable(), t) == t
  {
    assert t.allIds + [] == t.allIds;
    assert [] + t.allIds == t.allIds;
    assert t.byId + map[] == t.byId;
    assert map[] + t.byId == t.byId;
  }
}
