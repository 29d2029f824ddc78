/** The folder creation dialog: the name is checked against `required`, `maxLength(255)` and
    `^[a-zA-Z0-9\s._-]+$` before the folder is created under the dialog's parent folder. */
module FolderCreate {
  import opened Common
  import opened Strings

  const MaxNameLength: nat := 255

  /** One character of the class `[a-zA-Z0-9\s._-]`. */
  predicate NameChar(c: char) {
    IsAsciiLetter(c) || IsDigit(c) || JsWhitespace(c) || c == '.' || c == '_' || c == '-'
  }

  /** `[a-zA-Z0-9\s._-]+` matches the whole of `s`: one class character, then the rest
      matched by the same repetition or nothing. */
  predicate MatchesNameClassPlus(s: string)
    decreases |s|
  {
    |s| >= 1 && NameChar(s[0]) && (|s| == 1 || MatchesNameClassPlus(s[1..]))
  }

  /** The repetition matches exactly the non-empty strings made of class characters. */
  lemma {:induction false} NameClassPlusIsCharRun(s: string)
    ensures MatchesNameClassPlus(s) <==> |s| >= 1 && forall i :: 0 <= i < |s| ==> NameChar(s[i])
    decreases |s|
  {
    if |s| > 1 {
      NameClassPlusIsCharRun(s[1..]);
      assert forall i :: 1 <= i < |s| ==> s[i] == s[1..][i - 1];
    }
  }

  /** The three validators of the name control together (`required`, `maxLength(255)`,
      the pattern): a name is valid exactly when it has 1 to 255 characters, all from the
      class. */
  predicate ValidFolderName(s: string): (r: bool)
    ensures r <==> 1 <= |s| <= MaxNameLength && forall i :: 0 <= i < |s| ==> NameChar(s[i])
  {
    NameClassPlusIsCharRun(s);
    s != "" && |s| <= MaxNameLength && MatchesNameClassPlus(s)
  }

  /** `required` rejects only the empty string, and `\s` is in the class, so a name made
      only of blanks is accepted. */
  lemma BlankNameAccepted(s: string)
    requires 1 <= |s| <= MaxNameLength
    requires forall i :: 0 <= i < |s| ==> JsWhitespace(s[i])
    ensures ValidFolderName(s)
  {
  }

  /** One character outside the class, such as '/', makes the whole name invalid, and so
      does a 256th character. */
  lemma InvalidFolderNames(s: string, i: nat)
    ensures i < |s| && !NameChar(s[i]) ==> !ValidFolderName(s)
    ensures |s| > MaxNameLength ==> !ValidFolderName(s)
    ensures !NameChar('/')
  {
  }

  /** The body posted to create a folder; `None` is `null`, the root. */
  datatype CreateFolderRequest = CreateFolderRequest(name: string, parentFolderId: Option<int>)

  /** `x || undefined` / `x || null` on a folder id: absent and 0 are both falsy. */
  function RootIfFalsy(parentFolderId: Option<int>): (r: Option<int>)
    ensures r.None? <==> parentFolderId.None? || parentFolderId.value == 0
    ensures r.Some? ==> r == parentFolderId
  {
    if parentFolderId.Some? && parentFolderId.value != 0 then parentFolderId else None
  }

  /** `createFolder(name, parentFolderId)` in the folder service: builds the request body,
      again mapping a falsy parent id to `null`. */
  function CreateFolderCall(name: string, parentFolderId: Option<int>): (r: CreateFolderRequest)
    ensures r.name == name
    ensures r.parentFolderId.None? <==> parentFolderId.None? || parentFolderId.value == 0
    ensures r.parentFolderId.Some? ==> r.parentFolderId == parentFolderId
  {
    CreateFolderRequest(name, RootIfFalsy(parentFolderId))
  }

  /** The dialog's mapping and the service's mapping agree, so applying both is applying one:
      a folder created with parent 0 lands at the root. */
  lemma ParentMappingIdempotent(name: string, parentFolderId: Option<int>)
    ensures CreateFolderCall(name, RootIfFalsy(parentFolderId)) == CreateFolderCall(name, parentFolderId)
    ensures CreateFolderCall(name, Some(0)).parentFolderId == None
  {
  }

  class FolderCreateComponent {
    /** The dialog data: the folder the new folder goes into, `None` for the root. */
    const parentFolderId: Option<int>
    var isCreating: bool

    constructor (parentFolderId: Option<int>)
      ensures this.parentFolderId == parentFolderId && !isCreating
    {
      this.parentFolderId := parentFolderId;
      isCreating := false;
    }

    /** `create`: an invalid name returns before the service is called and leaves the dialog
        open; otherwise the folder is requested, and the dialog closes with `true` only when
        the request succeeds (on error it stays open). */
    method Create(name: string, reply: Outcome<FolderResponse>)
      returns (request: Option<CreateFolderRequest>, closeResult: Option<bool>)
      modifies this`isCreating
      ensures request == (if ValidFolderName(name)
                          then Some(CreateFolderCall(name, RootIfFalsy(parentFolderId))) else None)
      ensures closeResult == (if ValidFolderName(name) && reply.Ok? then Some(true) else None)
      ensures isCreating == (if ValidFolderName(name) then false else old(isCreating))
    {
      request := None;
      closeResult := None;
      if !ValidFolderName(name) {
        return;
      }
      isCreating := true;
      request := Some(CreateFolderCall(name, RootIfFalsy(parentFolderId)));
      isCreating := false;
      if reply.Ok? {
        closeResult := Some(true);
      }
    }

    /** `cancel`: the dialog closes with `false`, which the dashboard reads as "nothing was
        created". */
    method Cancel() returns (closeResult: Option<bool>)
      ensures closeResult == Some(false)
    {
      closeResult := Some(false);
    }
  }
}
