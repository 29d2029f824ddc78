/** The authenticated file viewer: the preview category comes from the file's MIME type,
    and the category decides how the content is opened. */
module FilePreview {
  import opened Common
  import opened Strings
  import opened PreviewTypes

  /** The tests of `determinePreviewType` applied to an already lowercased type. */
  function ClassifyLowered(m: string): (t: PreviewType)
    ensures t == Image <==> StartsWith(m, "image/")
    ensures t == Pdf <==> m == "application/pdf"
    ensures t == Video <==> StartsWith(m, "video/")
    ensures t == Audio <==> StartsWith(m, "audio/")
    ensures t == Text <==> StartsWith(m, "text/")
    ensures t != Folder
  {
    StartsWithExclusive(m, "image/", "video/", 0);
    StartsWithExclusive(m, "image/", "audio/", 0);
    StartsWithExclusive(m, "image/", "text/", 0);
    StartsWithExclusive(m, "image/", "application/pdf", 0);
    StartsWithExclusive(m, "video/", "audio/", 0);
    StartsWithExclusive(m, "video/", "text/", 0);
    StartsWithExclusive(m, "video/", "application/pdf", 0);
    StartsWithExclusive(m, "audio/", "text/", 0);
    StartsWithExclusive(m, "audio/", "application/pdf", 1);
    StartsWithExclusive(m, "text/", "application/pdf", 0);
    assert m == "application/pdf" ==> StartsWith(m, "application/pdf");
    if StartsWith(m, "image/") then Image
    else if m == "application/pdf" then Pdf
    else if StartsWith(m, "video/") then Video
    else if StartsWith(m, "audio/") then Audio
    else if StartsWith(m, "text/") then Text
    else Unsupported
  }

  /** `determinePreviewType`: the MIME type is lowercased, then tested against
      `image/`, exactly `application/pdf`, `video/`, `audio/` and `text/` in that order.
      The tests exclude one another, so each category is characterised by its own test. */
  function ClassifyMime(mimeType: string): (t: PreviewType)
    ensures t == Image <==> StartsWith(Lower(mimeType), "image/")
    ensures t == Pdf <==> Lower(mimeType) == "application/pdf"
    ensures t == Video <==> StartsWith(Lower(mimeType), "video/")
    ensures t == Audio <==> StartsWith(Lower(mimeType), "audio/")
    ensures t == Text <==> StartsWith(Lower(mimeType), "text/")
    ensures t != Folder
  {
    ClassifyLowered(Lower(mimeType))
  }

  /** Classification ignores case: a type and its lowercase form fall in one category. */
  lemma ClassifyMimeIgnoresCase(mimeType: string)
    ensures ClassifyMime(Lower(mimeType)) == ClassifyMime(mimeType)
  {
    LowerIdempotent(mimeType);
  }

  /** PDF is recognised only by the exact type: "application/pdf" followed by anything,
      such as a `;charset=` parameter, is unsupported. */
  lemma PdfWithParametersIsUnsupported(params: string)
    requires |params| > 0
    ensures ClassifyMime("application/pdf" + params) == Unsupported
  {
    var m := Lower("application/pdf" + params);
    assert m[0] == LowerChar('a') && m[1] == LowerChar('p');
  }

  /** `${token}` for a possibly-null token: null prints as "null". */
  function TokenText(token: Option<string>): (text: string)
    ensures token.Some? ==> text == token.value
    ensures token.None? ==> text == "null"
  {
    token.GetOr("null")
  }

  /** The authenticated preview endpoint of a file. */
  function PreviewEndpoint(apiUrl: string, fileId: int): (url: string)
    ensures StartsWith(url, apiUrl + "/files/")
    ensures url[|apiUrl| + 7..] == IntToString(fileId) + "/preview"
  {
    apiUrl + "/files/" + IntToString(fileId) + "/preview"
  }

  /** A `fetch` of textual content with its `Authorization` header. */
  datatype TextRequest = TextRequest(url: string, authorization: string)

  class FilePreviewComponent {
    const fileId: int
    const fileName: string
    const mimeType: string
    const fileSize: int
    var previewUrl: Option<string>
    var isLoading: bool
    var previewType: PreviewType
    var textContent: string

    /** The viewer's categories are those of `ClassifyMime`: never a folder. */
    predicate Valid()
      reads this
    {
      previewType != Folder
    }

    constructor (fileId: int, fileName: string, mimeType: string, fileSize: int)
      ensures this.fileId == fileId && this.fileName == fileName
      ensures this.mimeType == mimeType && this.fileSize == fileSize
      ensures previewUrl == None && isLoading && previewType == Unsupported && textContent == ""
      ensures Valid()
    {
      this.fileId := fileId;
      this.fileName := fileName;
      this.mimeType := mimeType;
      this.fileSize := fileSize;
      previewUrl := None;
      isLoading := true;
      previewType := Unsupported;
      textContent := "";
    }

    method DeterminePreviewType()
      modifies this`previewType
      ensures previewType == ClassifyMime(mimeType) && Valid()
    {
      var m := Lower(mimeType);
      if StartsWith(m, "image/") {
        previewType := Image;
      } else if m == "application/pdf" {
        previewType := Pdf;
      } else if StartsWith(m, "video/") {
        previewType := Video;
      } else if StartsWith(m, "audio/") {
        previewType := Audio;
      } else if StartsWith(m, "text/") {
        previewType := Text;
      } else {
        previewType := Unsupported;
      }
    }

    /** `loadPreview` with the stored token `token` (what `getToken()` returned) and the
        outcome of the text fetch, which is consulted only for text. Returns the text
        request made, if any. */
    method LoadPreview(apiUrl: string, token: Option<string>, textFetch: Outcome<string>)
      returns (request: Option<TextRequest>)
      requires Valid()
      modifies this`previewUrl, this`textContent, this`isLoading
      ensures !isLoading
      ensures previewType == Text ==>
                && request == Some(TextRequest(PreviewEndpoint(apiUrl, fileId), "Bearer " + TokenText(token)))
                && previewUrl == old(previewUrl)
                && textContent == (if textFetch.Ok? then textFetch.value else old(textContent))
      ensures previewType == Unsupported ==>
                request == None && previewUrl == old(previewUrl) && textContent == old(textContent)
      ensures previewType != Text && previewType != Unsupported ==>
                && request == None
                && previewUrl == Some(PreviewEndpoint(apiUrl, fileId) + "?token=" + TokenText(token))
                && textContent == old(textContent)
    {
      var url := apiUrl + "/files/" + IntToString(fileId) + "/preview";
      request := None;
      if previewType == Text {
        request := Some(TextRequest(url, "Bearer " + TokenText(token)));
        match textFetch
        case Ok(text) =>
          textContent := text;
          isLoading := false;
        case Err =>
          isLoading := false;
      } else if previewType != Unsupported {
        var urlWithToken := url + "?token=" + TokenText(token);
        previewUrl := Some(urlWithToken);
        isLoading := false;
      } else {
        isLoading := false;
      }
    }

    /** Classify, then load. */
    method NgOnInit(apiUrl: string, token: Option<string>, textFetch: Outcome<string>)
      returns (request: Option<TextRequest>)
      modifies this`previewType, this`previewUrl, this`textContent, this`isLoading
      ensures previewType == ClassifyMime(mimeType) && Valid()
      ensures !isLoading
      ensures request.Some? <==> previewType == Text
      ensures previewType == Text || previewType == Unsupported ==> previewUrl == old(previewUrl)
      ensures previewType != Text && previewType != Unsupported ==>
                previewUrl == Some(PreviewEndpoint(apiUrl, fileId) + "?token=" + TokenText(token))
      ensures textContent == (if previewType == Text && textFetch.Ok? then textFetch.value else old(textContent))
    {
      DeterminePreviewType();
      request := LoadPreview(apiUrl, token, textFetch);
    }
  }
}
