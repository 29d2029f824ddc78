/** The dashboard: a navigator over the folder tree that keeps the current folder, a
    breadcrumb trail from Home to it, and the listing of the current folder; and the
    icon chosen for a file from its MIME type. */
module Dashboard {
  import opened Common
  import opened Strings

  /** One breadcrumb; `id` None stands for the root. */
  datatype Crumb = Crumb(id: Option<int>, name: string)

  const Home: Crumb := Crumb(None, "Home")

  /** A deletion sent to the backend: to the file service or to the folder service. */
  datatype DeleteRequest = DeleteFileRequest(fileId: int) | DeleteFolderRequest(folderId: int)

  /** What the joined fetch of a location's subfolders and files produced; a list is
      None when its request completed without a value. */
  datatype Listing = Listing(folders: Option<seq<FolderResponse>>, files: Option<seq<FileModel>>)

  /** The joined fetch a load sends: `getRootFolders`/`getRootFiles` for the root, or
      `getSubfolders(id)`/`getFolderFiles(id)` for a folder. */
  datatype ListingRequest = RootListing | FolderListing(folderId: int)

  /** The joined fetch that lists a location. */
  function ListingFor(location: Option<int>): ListingRequest {
    if location.None? then RootListing else FolderListing(location.value)
  }

  /** `x || []` */
  function OrEmpty<T>(o: Option<seq<T>>): (r: seq<T>)
    ensures o.Some? ==> r == o.value
    ensures o.None? ==> r == []
  {
    o.GetOr([])
  }

  /* ---------------------------------------------------------------------------
     The breadcrumb trail
     --------------------------------------------------------------------------- */

  /** `trail.findIndex(b => b.id === id)`, scanning from `from`. */
  function FindIndexFrom(trail: seq<Crumb>, id: Option<int>, from: nat): (r: int)
    requires from <= |trail|
    ensures r == -1 || from <= r < |trail|
    ensures r >= 0 ==> trail[r].id == id && forall j :: from <= j < r ==> trail[j].id != id
    ensures r == -1 ==> forall j :: from <= j < |trail| ==> trail[j].id != id
    decreases |trail| - from
  {
    if from == |trail| then -1
    else if trail[from].id == id then from
    else FindIndexFrom(trail, id, from + 1)
  }

  /** `trail.findIndex(b => b.id === id)`: the first entry with that id, or -1. */
  function FindIndex(trail: seq<Crumb>, id: Option<int>): (r: int)
    ensures -1 <= r < |trail|
    ensures r >= 0 ==> trail[r].id == id && forall j :: 0 <= j < r ==> trail[j].id != id
    ensures r == -1 <==> forall j :: 0 <= j < |trail| ==> trail[j].id != id
  {
    FindIndexFrom(trail, id, 0)
  }

  predicate DistinctIds(trail: seq<Crumb>) {
    forall i, j :: 0 <= i < j < |trail| ==> trail[i].id != trail[j].id
  }

  /** The navigator's invariant: the trail is non-empty, starts at Home, names each
      folder once, and ends at the current location. */
  predicate TrailValid(trail: seq<Crumb>, current: Option<int>): (r: bool)
    ensures r ==> (current.None? <==> |trail| == 1)
  {
    && |trail| > 0
    && trail[0] == Home
    && DistinctIds(trail)
    && trail[|trail| - 1].id == current
  }

  /** The trail after entering folder `folderId`: cut back to that folder's entry if the
      trail already has one, otherwise extended by a new entry. */
  function EnterFolderTrail(trail: seq<Crumb>, folderId: int, folderName: string): (r: seq<Crumb>)
    ensures |r| > 0 && r[|r| - 1].id == Some(folderId)
    ensures |r| <= |trail| ==> r == trail[..|r|]
    ensures |r| > |trail| ==> r == trail + [Crumb(Some(folderId), folderName)]
  {
    var existingIndex := FindIndex(trail, Some(folderId));
    if existingIndex != -1 then trail[..existingIndex + 1]
    else trail + [Crumb(Some(folderId), folderName)]
  }

  /** The trail after clicking breadcrumb `crumb`. */
  function NavigateTrail(trail: seq<Crumb>, crumb: Crumb): (r: seq<Crumb>)
    ensures |r| > 0 && r[|r| - 1].id == crumb.id
    ensures crumb.id.None? ==> r == [Home]
  {
    if crumb.id.None? then [Home] else EnterFolderTrail(trail, crumb.id.value, crumb.name)
  }

  /** The initial trail satisfies the invariant at the root. */
  lemma InitialTrailValid()
    ensures TrailValid([Home], None)
  {
  }

  /** Entering a folder that is not on the trail appends exactly one entry and keeps
      every earlier entry. */
  lemma EnterNewFolderAppends(trail: seq<Crumb>, folderId: int, folderName: string)
    requires forall j :: 0 <= j < |trail| ==> trail[j].id != Some(folderId)
    ensures var r := EnterFolderTrail(trail, folderId, folderName);
            |r| == |trail| + 1 && r[..|trail|] == trail && r[|trail|] == Crumb(Some(folderId), folderName)
  {
    assert FindIndex(trail, Some(folderId)) == -1;
  }

  /** Entering a folder that is on the trail cuts the trail back to the first entry with
      that id; the name passed in is not used. */
  lemma EnterKnownFolderTruncates(trail: seq<Crumb>, folderId: int, folderName: string, k: nat)
    requires k < |trail| && trail[k].id == Some(folderId)
    requires forall j :: 0 <= j < k ==> trail[j].id != Some(folderId)
    ensures EnterFolderTrail(trail, folderId, folderName) == trail[..k + 1]
  {
    assert FindIndex(trail, Some(folderId)) == k;
  }

  /** Entering any folder from a valid trail gives a valid trail ending at that folder. */
  lemma EnterFolderKeepsValid(trail: seq<Crumb>, current: Option<int>, folderId: int, folderName: string)
    requires TrailValid(trail, current)
    ensures TrailValid(EnterFolderTrail(trail, folderId, folderName), Some(folderId))
  {
    var i := FindIndex(trail, Some(folderId));
    var r := EnterFolderTrail(trail, folderId, folderName);
    if i != -1 {
      assert r == trail[..i + 1];
      assert i > 0 by { assert trail[0].id == None; }
    } else {
      assert r == trail + [Crumb(Some(folderId), folderName)];
      forall a, b | 0 <= a < b < |r| ensures r[a].id != r[b].id {
        if b == |trail| {
          assert r[a] == trail[a];
        } else {
          assert r[a] == trail[a] && r[b] == trail[b];
        }
      }
    }
  }

  /** At the root, the only valid trail is [Home]. */
  lemma RootTrailIsHome(trail: seq<Crumb>)
    requires TrailValid(trail, None)
    ensures trail == [Home]
  {
    assert trail[0].id == trail[|trail| - 1].id;
  }

  /** Re-entering the current folder (what a refresh does) leaves a valid trail unchanged,
      whatever name is passed. */
  lemma ReenterCurrentFolder(trail: seq<Crumb>, folderId: int, folderName: string)
    requires TrailValid(trail, Some(folderId))
    ensures EnterFolderTrail(trail, folderId, folderName) == trail
  {
    var last := |trail| - 1;
    forall j | 0 <= j < last ensures trail[j].id != Some(folderId) {
      assert trail[j].id != trail[last].id;
    }
    EnterKnownFolderTruncates(trail, folderId, folderName, last);
  }

  /** Clicking the breadcrumb at position k of a valid trail cuts the trail back to it;
      clicking Home gives the root trail. */
  lemma NavigateToCrumbTruncates(trail: seq<Crumb>, current: Option<int>, k: nat)
    requires TrailValid(trail, current) && k < |trail|
    ensures NavigateTrail(trail, trail[k]) == trail[..k + 1]
  {
    if k == 0 {
      assert trail[..1] == [Home];
    } else {
      assert trail[k].id != trail[0].id;
      var f := trail[k].id.value;
      forall j | 0 <= j < k ensures trail[j].id != Some(f) {
        assert trail[j].id != trail[k].id;
      }
      EnterKnownFolderTruncates(trail, f, trail[k].name, k);
    }
  }

  /** Entering A, then its child B, then A again leaves [Home, A], not [Home, A, B, A]. */
  lemma JumpBackToAncestor(a: int, b: int, nameA: string, nameB: string, nameA2: string)
    requires a != b
    ensures EnterFolderTrail(EnterFolderTrail(EnterFolderTrail([Home], a, nameA), b, nameB), a, nameA2)
            == [Home, Crumb(Some(a), nameA)]
  {
    var t1 := EnterFolderTrail([Home], a, nameA);
    EnterNewFolderAppends([Home], a, nameA);
    assert t1 == [Home, Crumb(Some(a), nameA)];
    var t2 := EnterFolderTrail(t1, b, nameB);
    EnterNewFolderAppends(t1, b, nameB);
    assert t2 == [Home, Crumb(Some(a), nameA), Crumb(Some(b), nameB)];
    EnterKnownFolderTruncates(t2, a, nameA2, 1);
    assert t2[..2] == [Home, Crumb(Some(a), nameA)];
  }

  /* ---------------------------------------------------------------------------
     The component
     --------------------------------------------------------------------------- */

  /** The dashboard's navigation state. Each load is one atomic step: the location and
      the trail change first, then the joined fetch either replaces both listings or,
      on failure, leaves them as they were. */
  class DashboardComponent {
    var files: seq<FileModel>
    var folders: seq<FolderResponse>
    var isLoading: bool
    var currentFolderId: Option<int>
    var breadcrumbs: seq<Crumb>

    predicate Valid()
      reads this
    {
      TrailValid(breadcrumbs, currentFolderId)
    }

    constructor ()
      ensures files == [] && folders == [] && !isLoading
      ensures currentFolderId == None && breadcrumbs == [Home]
      ensures Valid()
    {
      files := [];
      folders := [];
      isLoading := false;
      currentFolderId := None;
      breadcrumbs := [Home];
    }

    /** The `then`/`catch` of a joined fetch. */
    method Settle(fetch: Outcome<Listing>)
      modifies this`folders, this`files, this`isLoading
      ensures fetch.Ok? ==> folders == OrEmpty(fetch.value.folders) && files == OrEmpty(fetch.value.files)
      ensures fetch.Err? ==> folders == old(folders) && files == old(files)
      ensures !isLoading
    {
      match fetch
      case Ok(listing) =>
        folders := OrEmpty(listing.folders);
        files := OrEmpty(listing.files);
        isLoading := false;
      case Err =>
        isLoading := false;
    }

    method LoadRootContent(fetch: Outcome<Listing>) returns (request: ListingRequest)
      modifies this
      ensures request == RootListing
      ensures currentFolderId == None && breadcrumbs == [Home] && Valid()
      ensures fetch.Ok? ==> folders == OrEmpty(fetch.value.folders) && files == OrEmpty(fetch.value.files)
      ensures fetch.Err? ==> folders == old(folders) && files == old(files)
      ensures !isLoading
    {
      isLoading := true;
      currentFolderId := None;
      breadcrumbs := [Home];
      request := RootListing;
      Settle(fetch);
    }

    method LoadFolderContent(folderId: int, folderName: string, fetch: Outcome<Listing>)
      returns (request: ListingRequest)
      modifies this
      ensures request == FolderListing(folderId)
      ensures currentFolderId == Some(folderId)
      ensures breadcrumbs == EnterFolderTrail(old(breadcrumbs), folderId, folderName)
      ensures old(Valid()) ==> Valid()
      ensures fetch.Ok? ==> folders == OrEmpty(fetch.value.folders) && files == OrEmpty(fetch.value.files)
      ensures fetch.Err? ==> folders == old(folders) && files == old(files)
      ensures !isLoading
    {
      isLoading := true;
      currentFolderId := Some(folderId);
      var existingIndex := FindIndex(breadcrumbs, Some(folderId));
      if existingIndex != -1 {
        breadcrumbs := breadcrumbs[..existingIndex + 1];
      } else {
        breadcrumbs := breadcrumbs + [Crumb(Some(folderId), folderName)];
      }
      if old(Valid()) {
        EnterFolderKeepsValid(old(breadcrumbs), old(currentFolderId), folderId, folderName);
      }
      request := FolderListing(folderId);
      Settle(fetch);
    }

    /** Home lists the root; any other breadcrumb lists its folder. */
    method NavigateToBreadcrumb(crumb: Crumb, fetch: Outcome<Listing>) returns (request: ListingRequest)
      modifies this
      ensures request == (if crumb.id.None? then RootListing else FolderListing(crumb.id.value))
      ensures currentFolderId == crumb.id
      ensures breadcrumbs == NavigateTrail(old(breadcrumbs), crumb)
      ensures old(Valid()) ==> Valid()
      ensures fetch.Ok? ==> folders == OrEmpty(fetch.value.folders) && files == OrEmpty(fetch.value.files)
      ensures fetch.Err? ==> folders == old(folders) && files == old(files)
      ensures !isLoading
    {
      if crumb.id.None? {
        request := LoadRootContent(fetch);
      } else {
        request := LoadFolderContent(crumb.id.value, crumb.name, fetch);
      }
    }

    /** Re-fetch the current location; the location and the trail stay as they are. */
    method RefreshCurrentView(fetch: Outcome<Listing>) returns (request: ListingRequest)
      requires Valid()
      modifies this
      ensures request == (if old(currentFolderId).None? then RootListing
                          else FolderListing(old(currentFolderId).value))
      ensures Valid()
      ensures currentFolderId == old(currentFolderId) && breadcrumbs == old(breadcrumbs)
      ensures fetch.Ok? ==> folders == OrEmpty(fetch.value.folders) && files == OrEmpty(fetch.value.files)
      ensures fetch.Err? ==> folders == old(folders) && files == old(files)
      ensures !isLoading
    {
      if currentFolderId.None? {
        RootTrailIsHome(breadcrumbs);
        request := LoadRootContent(fetch);
      } else {
        var currentBreadcrumb := breadcrumbs[|breadcrumbs| - 1];
        ReenterCurrentFolder(breadcrumbs, currentFolderId.value, currentBreadcrumb.name);
        request := LoadFolderContent(currentFolderId.value, currentBreadcrumb.name, fetch);
      }
    }

    /** Closing the upload or create-folder dialog: a truthy result refreshes the view;
        `refresh` is the listing fetch sent, if any. */
    method AfterDialogClosed(result: bool, fetch: Outcome<Listing>) returns (refresh: Option<ListingRequest>)
      requires Valid()
      modifies this
      ensures refresh == (if result then Some(ListingFor(old(currentFolderId))) else None)
      ensures Valid()
      ensures currentFolderId == old(currentFolderId) && breadcrumbs == old(breadcrumbs)
      ensures result && fetch.Ok? ==> folders == OrEmpty(fetch.value.folders) && files == OrEmpty(fetch.value.files)
      ensures !result || fetch.Err? ==> folders == old(folders) && files == old(files)
      ensures result ==> !isLoading
      ensures !result ==> isLoading == old(isLoading)
    {
      refresh := None;
      if result {
        var request := RefreshCurrentView(fetch);
        refresh := Some(request);
      }
    }

    /** The confirm-delete-refresh sequence shared by files and folders: the request is
        sent only after confirmation, and the view is refreshed only when the deletion
        succeeded; `refresh` is the listing fetch sent, if any. */
    method ConfirmDelete(target: DeleteRequest, confirmed: bool, deleted: Outcome<()>, fetch: Outcome<Listing>)
      returns (sent: Option<DeleteRequest>, refresh: Option<ListingRequest>)
      requires Valid()
      modifies this
      ensures sent == (if confirmed then Some(target) else None)
      ensures refresh == (if confirmed && deleted.Ok? then Some(ListingFor(old(currentFolderId))) else None)
      ensures Valid()
      ensures currentFolderId == old(currentFolderId) && breadcrumbs == old(breadcrumbs)
      ensures confirmed && deleted.Ok? && fetch.Ok? ==>
                folders == OrEmpty(fetch.value.folders) && files == OrEmpty(fetch.value.files)
      ensures !(confirmed && deleted.Ok? && fetch.Ok?) ==> folders == old(folders) && files == old(files)
      ensures confirmed && deleted.Ok? ==> !isLoading
      ensures !(confirmed && deleted.Ok?) ==> isLoading == old(isLoading)
    {
      sent := None;
      refresh := None;
      if confirmed {
        sent := Some(target);
        if deleted.Ok? {
          var request := RefreshCurrentView(fetch);
          refresh := Some(request);
        }
      }
    }

    /** `deleteFile`: the file service is asked to delete the file's id. */
    method DeleteFile(file: FileModel, confirmed: bool, deleted: Outcome<()>, fetch: Outcome<Listing>)
      returns (sent: Option<DeleteRequest>, refresh: Option<ListingRequest>)
      requires Valid()
      modifies this
      ensures sent == (if confirmed then Some(DeleteFileRequest(file.id)) else None)
      ensures refresh == (if confirmed && deleted.Ok? then Some(ListingFor(old(currentFolderId))) else None)
      ensures Valid()
      ensures currentFolderId == old(currentFolderId) && breadcrumbs == old(breadcrumbs)
      ensures confirmed && deleted.Ok? && fetch.Ok? ==>
                folders == OrEmpty(fetch.value.folders) && files == OrEmpty(fetch.value.files)
      ensures !(confirmed && deleted.Ok? && fetch.Ok?) ==> folders == old(folders) && files == old(files)
      ensures confirmed && deleted.Ok? ==> !isLoading
      ensures !(confirmed && deleted.Ok?) ==> isLoading == old(isLoading)
    {
      sent, refresh := ConfirmDelete(DeleteFileRequest(file.id), confirmed, deleted, fetch);
    }

    /** `deleteFolder`: the folder service is asked to delete the folder's id (the backend
        refuses a non-empty folder, which arrives here as `Err`). */
    method DeleteFolder(folder: FolderResponse, confirmed: bool, deleted: Outcome<()>, fetch: Outcome<Listing>)
      returns (sent: Option<DeleteRequest>, refresh: Option<ListingRequest>)
      requires Valid()
      modifies this
      ensures sent == (if confirmed then Some(DeleteFolderRequest(folder.id)) else None)
      ensures refresh == (if confirmed && deleted.Ok? then Some(ListingFor(old(currentFolderId))) else None)
      ensures Valid()
      ensures currentFolderId == old(currentFolderId) && breadcrumbs == old(breadcrumbs)
      ensures confirmed && deleted.Ok? && fetch.Ok? ==>
                folders == OrEmpty(fetch.value.folders) && files == OrEmpty(fetch.value.files)
      ensures !(confirmed && deleted.Ok? && fetch.Ok?) ==> folders == old(folders) && files == old(files)
      ensures confirmed && deleted.Ok? ==> !isLoading
      ensures !(confirmed && deleted.Ok?) ==> isLoading == old(isLoading)
    {
      sent, refresh := ConfirmDelete(DeleteFolderRequest(folder.id), confirmed, deleted, fetch);
    }
  }

  /* ---------------------------------------------------------------------------
     File icons
     --------------------------------------------------------------------------- */

  /** `getFileIcon`: an ordered list of tests on the MIME type; the first that holds wins. */
  function FileIcon(mimeType: string): (icon: string)
    ensures icon in FileIcons
  {
    if StartsWith(mimeType, "image/") then "image"
    else if StartsWith(mimeType, "video/") then "videocam"
    else if StartsWith(mimeType, "audio/") then "audiotrack"
    else if Contains(mimeType, "pdf") then "picture_as_pdf"
    else if Contains(mimeType, "word") || Contains(mimeType, "document") then "description"
    else if Contains(mimeType, "sheet") || Contains(mimeType, "excel") then "table_chart"
    else if Contains(mimeType, "presentation") || Contains(mimeType, "powerpoint") then "slideshow"
    else if Contains(mimeType, "zip") || Contains(mimeType, "rar") then "folder_zip"
    else "insert_drive_file"
  }

  /** No media prefix and no "pdf": the rule for the media kinds and PDF do not fire. */
  predicate NotMediaNorPdf(mimeType: string) {
    && !StartsWith(mimeType, "image/")
    && !StartsWith(mimeType, "video/")
    && !StartsWith(mimeType, "audio/")
    && !Contains(mimeType, "pdf")
  }

  /** The icon names `getFileIcon` can produce. */
  const FileIcons: set<string> := {"image", "videocam", "audiotrack", "picture_as_pdf", "description",
                                   "table_chart", "slideshow", "folder_zip", "insert_drive_file"}

  /** A media prefix decides the icon, whatever else the type contains. */
  lemma FileIconMediaPrefix(mimeType: string)
    ensures StartsWith(mimeType, "image/") ==> FileIcon(mimeType) == "image"
    ensures !StartsWith(mimeType, "image/") && StartsWith(mimeType, "video/") ==> FileIcon(mimeType) == "videocam"
    ensures (!StartsWith(mimeType, "image/") && !StartsWith(mimeType, "video/") && StartsWith(mimeType, "audio/"))
              ==> FileIcon(mimeType) == "audiotrack"
  {
  }

  /** Any non-media, non-PDF type containing "document" gets "description", so the
      spreadsheet and presentation rules never see an Office Open XML type. */
  lemma FileIconDocumentWins(mimeType: string)
    requires NotMediaNorPdf(mimeType) && Contains(mimeType, "document")
    ensures FileIcon(mimeType) == "description"
  {
  }

  /** The generic icon is given exactly when no rule's test holds. */
  lemma FileIconFallback(mimeType: string)
    ensures FileIcon(mimeType) == "insert_drive_file" <==>
              && NotMediaNorPdf(mimeType)
              && !Contains(mimeType, "word") && !Contains(mimeType, "document")
              && !Contains(mimeType, "sheet") && !Contains(mimeType, "excel")
              && !Contains(mimeType, "presentation") && !Contains(mimeType, "powerpoint")
              && !Contains(mimeType, "zip") && !Contains(mimeType, "rar")
  {
  }

  /** Past the media, PDF and document tests, "excel" gives the spreadsheet icon and, failing
      the spreadsheet tests, "powerpoint" gives the presentation icon. */
  lemma FileIconPastDocument(t: string)
    requires NotMediaNorPdf(t) && !Contains(t, "word") && !Contains(t, "document")
    ensures Contains(t, "excel") ==> FileIcon(t) == "table_chart"
    ensures !Contains(t, "sheet") && !Contains(t, "excel") && Contains(t, "powerpoint") ==>
              FileIcon(t) == "slideshow"
  {
  }

  /** The legacy Office types carry no "word" or "document" and keep their own icons. */
  lemma LegacyExcelIcon(mimeType: string)
    ensures mimeType == "application/vnd.ms-excel" ==> FileIcon(mimeType) == "table_chart"
  {
    if mimeType == "application/vnd.ms-excel" {
      assert mimeType[..6][0] == 'a' && mimeType[..6][1] == 'p';
      MissingCharNotContained(mimeType, "pdf", 2);
      MissingCharNotContained(mimeType, "word", 0);
      MissingCharNotContained(mimeType, "document", 3);
      assert mimeType == "application/vnd.ms-" + "excel";
      ContainsSuffix("application/vnd.ms-", "excel");
      FileIconPastDocument(mimeType);
    }
  }

  lemma LegacyPowerpointIcon(mimeType: string)
    ensures mimeType == "application/vnd.ms-powerpoint" ==> FileIcon(mimeType) == "slideshow"
  {
    if mimeType == "application/vnd.ms-powerpoint" {
      PowerpointNotDocument(mimeType);
      PowerpointNotSpreadsheet(mimeType);
      FileIconPastDocument(mimeType);
    }
  }

  /** The legacy presentation type passes the media, PDF and document tests. */
  lemma PowerpointNotDocument(mimeType: string)
    requires mimeType == "application/vnd.ms-powerpoint"
    ensures NotMediaNorPdf(mimeType) && !Contains(mimeType, "word") && !Contains(mimeType, "document")
  {
    assert mimeType[..6][0] == 'a' && mimeType[..6][1] == 'p';
    MissingCharNotContained(mimeType, "pdf", 2);
    MissingPairNotContained(mimeType, "word", 0);
    MissingCharNotContained(mimeType, "document", 3);
  }

  /** The legacy presentation type passes the spreadsheet tests and names "powerpoint". */
  lemma PowerpointNotSpreadsheet(mimeType: string)
    requires mimeType == "application/vnd.ms-powerpoint"
    ensures !Contains(mimeType, "sheet") && !Contains(mimeType, "excel") && Contains(mimeType, "powerpoint")
  {
    MissingCharNotContained(mimeType, "sheet", 1);
    MissingCharNotContained(mimeType, "excel", 1);
    assert mimeType == "application/vnd.ms-" + "powerpoint";
    ContainsSuffix("application/vnd.ms-", "powerpoint");
  }

  /** As written, an Office Open XML spreadsheet or presentation type (whose MIME type
      contains "officedocument") is shown with the document icon. */
  lemma OfficeSheetShownAsDocument(prefix: string, kind: string)
    requires NotMediaNorPdf(prefix + "officedocument" + kind)
    ensures FileIcon(prefix + "officedocument" + kind) == "description"
  {
    var m := prefix + "officedocument" + kind;
    assert m[|prefix| + 6..|prefix| + 14] == "document";
    ContainsAt(m, "document", |prefix| + 6);
  }

  /** The icon table as evidently intended: the spreadsheet and presentation tests come
      before the generic "document" test. */
  function FileIconIntended(mimeType: string): (icon: string)
    ensures icon in FileIcons
  {
    if StartsWith(mimeType, "image/") then "image"
    else if StartsWith(mimeType, "video/") then "videocam"
    else if StartsWith(mimeType, "audio/") then "audiotrack"
    else if Contains(mimeType, "pdf") then "picture_as_pdf"
    else if Contains(mimeType, "sheet") || Contains(mimeType, "excel") then "table_chart"
    else if Contains(mimeType, "presentation") || Contains(mimeType, "powerpoint") then "slideshow"
    else if Contains(mimeType, "word") || Contains(mimeType, "document") then "description"
    else if Contains(mimeType, "zip") || Contains(mimeType, "rar") then "folder_zip"
    else "insert_drive_file"
  }

  /** Intended: a non-media, non-PDF spreadsheet type gets the table icon, and a
      presentation type (that is not also a spreadsheet) the slideshow icon. */
  lemma IntendedIconForOfficeTypes(mimeType: string)
    requires NotMediaNorPdf(mimeType)
    ensures Contains(mimeType, "sheet") ==> FileIconIntended(mimeType) == "table_chart"
    ensures (!Contains(mimeType, "sheet") && !Contains(mimeType, "excel") && Contains(mimeType, "presentation"))
              ==> FileIconIntended(mimeType) == "slideshow"
  {
  }

  /** The two tables agree on every type that mentions neither spreadsheets nor
      presentations. */
  lemma IntendedAgreesElsewhere(mimeType: string)
    requires !Contains(mimeType, "sheet") && !Contains(mimeType, "excel")
    requires !Contains(mimeType, "presentation") && !Contains(mimeType, "powerpoint")
    ensures FileIconIntended(mimeType) == FileIcon(mimeType)
  {
  }
}
