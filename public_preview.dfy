/** The public (link-token) viewer: it resolves the share, classifies a file by the
    extension of its name, and points the preview at the public endpoint for the token. */
module PublicPreview {
  import opened Common
  import opened Strings
  import opened PreviewTypes

  /** `name.split('.').pop().toLowerCase()`: the text after the last '.', or the whole
      name when it has none, lowercased. */
  function Extension(itemName: string): (ext: string)
    ensures '.' !in ext
    ensures '.' !in itemName ==> ext == Lower(itemName)
  {
    var i := LastIndexOf(itemName, '.');
    var tail := if i == -1 then itemName else itemName[i + 1..];
    assert '.' !in tail;
    Lower(tail)
  }

  /** The extension of "stem.ext" is the lowercased ext, whatever the stem holds. */
  lemma ExtensionAfterLastDot(stem: string, ext: string)
    requires '.' !in ext
    ensures Extension(stem + "." + ext) == Lower(ext)
  {
    var name := stem + "." + ext;
    var i := LastIndexOf(name, '.');
    assert name[|stem|] == '.';
    assert forall j :: |stem| < j < |name| ==> name[j] == ext[j - |stem| - 1];
    assert name[i + 1..] == ext;
  }

  const ImageExtensions: set<string> := {"jpg", "jpeg", "png", "gif", "webp", "bmp"}
  const VideoExtensions: set<string> := {"mp4", "webm", "ogg"}
  const AudioExtensions: set<string> := {"mp3", "wav", "ogg"}

  /** The extension tests of `determinePreviewType`, in order: image, pdf, video, audio. */
  function ClassifyExtension(ext: string): (t: PreviewType)
    ensures t == Image <==> ext in ImageExtensions
    ensures t == Pdf <==> ext == "pdf"
    ensures t == Video <==> ext in VideoExtensions
    ensures t == Audio <==> ext in AudioExtensions - VideoExtensions
    ensures t != Text && t != Folder
  {
    if ext in ImageExtensions then Image
    else if ext == "pdf" then Pdf
    else if ext in VideoExtensions then Video
    else if ext in AudioExtensions then Audio
    else Unsupported
  }

  /** `determinePreviewType` on the shared item's name. */
  function ClassifyName(itemName: string): (t: PreviewType)
    ensures t != Text && t != Folder
    ensures '.' !in itemName ==> t == ClassifyExtension(Lower(itemName))
  {
    ClassifyExtension(Extension(itemName))
  }

  /** "ogg" is listed as both video and audio; video is tested first and wins, in any case. */
  lemma OggIsVideo(stem: string)
    ensures ClassifyName(stem + ".ogg") == Video
    ensures ClassifyName(stem + ".OGG") == Video
  {
    assert stem + ".ogg" == stem + "." + "ogg";
    assert stem + ".OGG" == stem + "." + "OGG";
    ExtensionAfterLastDot(stem, "ogg");
    ExtensionAfterLastDot(stem, "OGG");
    assert Lower("ogg") == "ogg" == Lower("OGG");
    assert ClassifyExtension("ogg") == Video;
  }

  /** A name without a dot is its own extension: "PDF" previews as a PDF. */
  lemma BareNameIsItsOwnExtension()
    ensures ClassifyName("PDF") == Pdf
  {
    assert Lower("PDF") == "pdf";
  }

  /** A name ending in a dot has the empty extension, which is unsupported. */
  lemma TrailingDotIsUnsupported(stem: string)
    ensures ClassifyName(stem + ".") == Unsupported
  {
    assert stem + "." == stem + "." + "";
    ExtensionAfterLastDot(stem, "");
    assert Lower("") == "";
  }

  /** An extension outside the lists, such as "exe", is unsupported. */
  lemma UnlistedExtensionIsUnsupported(stem: string)
    ensures ClassifyName(stem + ".exe") == Unsupported
  {
    assert stem + ".exe" == stem + "." + "exe";
    ExtensionAfterLastDot(stem, "exe");
    assert Lower("exe") == "exe";
  }

  /** `environment.apiUrl.replace('/api', '')`: only the first "/api" is removed. */
  function PublicBaseUrl(apiUrl: string): (base: string)
    ensures !Contains(apiUrl, "/api") ==> base == apiUrl
    ensures Contains(apiUrl, "/api") ==> |base| + 4 == |apiUrl|
    ensures Contains(apiUrl, "/api") ==>
              var i := IndexOf(apiUrl, "/api").value; base == apiUrl[..i] + apiUrl[i + 4..]
  {
    ReplaceFirst(apiUrl, "/api", "")
  }

  /** When the only "/api" in the API address is the one that ends it, the public base
      is the address without it. */
  lemma PublicBaseUrlStripsTrailingApi(base: string)
    requires forall j :: 0 <= j < |base| ==> !OccursAt(base + "/api", "/api", j)
    ensures PublicBaseUrl(base + "/api") == base
  {
    var u := base + "/api";
    assert OccursAt(u, "/api", |base|);
    var i := IndexOf(u, "/api");
    assert i == Some(|base|);
    assert u[..|base|] == base;
  }

  /** The preview address for a link token; it holds no session credential. */
  function PublicPreviewUrl(apiUrl: string, linkToken: string): (url: string)
    ensures StartsWith(url, PublicBaseUrl(apiUrl))
    ensures url[|PublicBaseUrl(apiUrl)|..] == "/public/shared/" + linkToken + "/preview"
  {
    PublicBaseUrl(apiUrl) + "/public/shared/" + linkToken + "/preview"
  }

  class PublicPreviewComponent {
    var shareInfo: Option<ShareResponse>
    var previewUrl: Option<string>
    var isLoading: bool
    var previewType: PreviewType
    var linkToken: string

    /** The extension classifier never yields the text category. */
    predicate Valid()
      reads this
    {
      previewType != Text
    }

    constructor ()
      ensures shareInfo == None && previewUrl == None && isLoading
      ensures previewType == Unsupported && linkToken == ""
      ensures Valid()
    {
      shareInfo := None;
      previewUrl := None;
      isLoading := true;
      previewType := Unsupported;
      linkToken := "";
    }

    /** `shareInfo?.itemName || ''` classified by extension. */
    method DeterminePreviewType()
      modifies this`previewType
      ensures previewType == ClassifyName(if shareInfo.Some? then shareInfo.value.itemName else "")
      ensures Valid()
    {
      var fileName := if shareInfo.Some? then shareInfo.value.itemName else "";
      var ext := Extension(fileName);
      if ext in ImageExtensions {
        previewType := Image;
      } else if ext == "pdf" {
        previewType := Pdf;
      } else if ext in VideoExtensions {
        previewType := Video;
      } else if ext in AudioExtensions {
        previewType := Audio;
      } else {
        previewType := Unsupported;
      }
      assert previewType == ClassifyName(fileName);
    }

    method LoadPreview(apiUrl: string)
      modifies this`previewUrl, this`isLoading
      ensures previewUrl == Some(PublicPreviewUrl(apiUrl, linkToken)) && !isLoading
    {
      var baseUrl := ReplaceFirst(apiUrl, "/api", "");
      var url := baseUrl + "/public/shared/" + linkToken + "/preview";
      previewUrl := Some(url);
      isLoading := false;
    }

    /** `loadShareInfo` given the outcome of resolving the link token; `resolved` is the
        token sent to the share service. */
    method LoadShareInfo(info: Outcome<ShareResponse>, apiUrl: string) returns (resolved: string)
      modifies this`shareInfo, this`previewType, this`previewUrl, this`isLoading
      ensures resolved == linkToken
      ensures old(Valid()) ==> Valid()
      ensures !isLoading
      ensures info.Err? ==>
                shareInfo == old(shareInfo) && previewType == old(previewType) && previewUrl == old(previewUrl)
      ensures info.Ok? ==> shareInfo == Some(info.value)
      ensures info.Ok? && info.value.itemType == "folder" ==>
                previewType == Folder && previewUrl == old(previewUrl)
      ensures info.Ok? && info.value.itemType != "folder" ==>
                && previewType == ClassifyName(info.value.itemName)
                && previewUrl == Some(PublicPreviewUrl(apiUrl, linkToken))
    {
      resolved := linkToken;
      match info
      case Ok(response) =>
        shareInfo := Some(response);
        if response.itemType == "folder" {
          previewType := Folder;
          isLoading := false;
        } else {
          DeterminePreviewType();
          LoadPreview(apiUrl);
        }
      case Err =>
        isLoading := false;
    }

    /** `ngOnInit` with the route's `token` parameter (None when absent). */
    method NgOnInit(tokenParam: Option<string>, info: Outcome<ShareResponse>, apiUrl: string)
      returns (resolved: string)
      modifies this
      ensures linkToken == tokenParam.GetOr("") && resolved == linkToken
      ensures old(Valid()) ==> Valid()
      ensures !isLoading
      ensures info.Err? ==>
                shareInfo == old(shareInfo) && previewType == old(previewType) && previewUrl == old(previewUrl)
      ensures info.Ok? ==> shareInfo == Some(info.value)
      ensures info.Ok? && info.value.itemType == "folder" ==>
                previewType == Folder && previewUrl == old(previewUrl)
      ensures info.Ok? && info.value.itemType != "folder" ==>
                && previewType == ClassifyName(info.value.itemName)
                && previewUrl == Some(PublicPreviewUrl(apiUrl, linkToken))
    {
      linkToken := tokenParam.GetOr("");
      resolved := LoadShareInfo(info, apiUrl);
    }
  }
}
