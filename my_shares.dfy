/** The list of the user's share links: loading it, revoking one link after confirmation,
    and the expiry badge and type icon shown per row. */
module MyShares {
  import opened Common

  /** `new Date(expiresAt) < new Date()`, with both times as milliseconds since the epoch and
      an unparseable date (an Invalid Date, whose time is NaN) as `None`: a comparison with
      NaN is false. */
  predicate IsExpired(expiresAt: Option<int>, now: int): (r: bool)
    ensures expiresAt.None? ==> !r
    ensures expiresAt == Some(now) ==> !r
  {
    expiresAt.Some? && expiresAt.value < now
  }

  /** The comparison is strict, an unparseable date never expires, and once expired a link
      stays expired as the clock moves forward. */
  lemma IsExpiredProperties(expiresAt: Option<int>, now: int, later: int)
    ensures expiresAt.Some? ==> !IsExpired(expiresAt, expiresAt.value)
    ensures expiresAt.Some? ==> IsExpired(expiresAt, expiresAt.value + 1)
    ensures !IsExpired(None, now)
    ensures now <= later && IsExpired(expiresAt, now) ==> IsExpired(expiresAt, later)
  {
  }

  /** `getTypeIcon`: the file icon for exactly the string "file", the folder icon otherwise. */
  function TypeIcon(itemType: string): (r: string)
    ensures r == "insert_drive_file" <==> itemType == "file"
    ensures r == "insert_drive_file" || r == "folder"
  {
    if itemType == "file" then "insert_drive_file" else "folder"
  }

  class MySharesComponent {
    var shares: seq<ShareResponse>
    var isLoading: bool

    constructor ()
      ensures shares == [] && !isLoading
    {
      shares := [];
      isLoading := false;
    }

    /** `loadShares`: a reply replaces the list wholesale; an error keeps the list shown
        before. Either way the spinner stops. */
    method LoadShares(reply: Outcome<seq<ShareResponse>>)
      modifies this
      ensures reply.Ok? ==> shares == reply.value
      ensures reply.Err? ==> shares == old(shares)
      ensures !isLoading
    {
      isLoading := true;
      match reply
      case Ok(list) =>
        shares := list;
        isLoading := false;
      case Err =>
        isLoading := false;
    }

    /** `revokeShare`: only a confirmed dialog sends the revocation, for `share.shareId`;
        only a successful revocation reloads the list, from `reload`. */
    method RevokeShare(share: ShareResponse, confirmed: bool, revoked: Outcome<()>,
                       reload: Outcome<seq<ShareResponse>>)
      returns (revokeRequest: Option<int>)
      modifies this
      ensures revokeRequest == (if confirmed then Some(share.shareId) else None)
      ensures confirmed && revoked.Ok? && reload.Ok? ==> shares == reload.value && !isLoading
      ensures !(confirmed && revoked.Ok? && reload.Ok?) ==> shares == old(shares)
      ensures confirmed && revoked.Ok? ==> !isLoading
      ensures !(confirmed && revoked.Ok?) ==> isLoading == old(isLoading)
    {
      revokeRequest := None;
      if confirmed {
        revokeRequest := Some(share.shareId);
        if revoked.Ok? {
          LoadShares(reload);
        }
      }
    }
  }
}
