/** Values shared by the components: optional values, the outcome of a backend call,
    the records the backend returns and the routes the application navigates to. */
module Common {

  /** A value that may be absent (`null` or `undefined` in the application). */
  datatype Option<+T> = None | Some(value: T) {
    /** `x || fallback` for a value that is falsy only when absent. */
    function GetOr(fallback: T): T {
      match this
      case Some(v) => v
      case None => fallback
    }
  }

  /** The outcome of one backend call: its payload, or a transport/server error. */
  datatype Outcome<+T> = Ok(value: T) | Err

  /** A folder as the directory backend lists it. */
  datatype FolderResponse = FolderResponse(id: int, name: string, parentFolderId: Option<int>)

  /** The folder a listed file sits in, as the file listing names it. */
  datatype FolderRef = FolderRef(id: int, name: string)

  /** A file as the directory backend lists it. */
  datatype FileModel = FileModel(id: int, displayName: string, size: int, mimeType: string,
                                 folder: Option<FolderRef>)

  /** A share link as the share backend returns it; `itemType` is "file" or "folder".
      Dates are the server's strings; an absent `itemName` is the empty string. */
  datatype ShareResponse = ShareResponse(shareId: int, linkToken: string, shareUrl: string,
                                         itemType: string, itemName: string, itemId: int,
                                         expiresAt: string, createdAt: string)

  /** Reply of the OTP request endpoint. */
  datatype OtpResponse = OtpResponse(success: bool, otp: Option<string>, message: string)

  /** Reply of the OTP verification endpoint. */
  datatype AuthResponse = AuthResponse(token: string, phoneNumber: string)

  /** The routes a component may navigate to; the verify route carries its navigation state. */
  datatype Route = LoginRoute | VerifyOtpRoute(phoneNumber: string, otp: Option<string>) | DashboardRoute
}
