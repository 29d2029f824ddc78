# Secure file sharing: frontend logic

This project models the logic of the Angular frontend of a secure file sharing
application. Users sign in with a phone number and a one-time password (OTP), browse
their folders, preview files, create folders and manage public share links. The HTTP
calls, dialogs, snackbars and rendering are glue. This model covers the parts of the
frontend that decide things:

- **Breadcrumb navigator** (`Dashboard`). The dashboard keeps the current folder, a
  breadcrumb trail from Home to it, and the listing of the current folder. Entering a
  folder cuts the trail back to that folder's entry, or appends a new entry. Entering the
  root resets the trail. A refresh re-enters the current location. The invariant is that
  the trail is non-empty, starts at Home, names each folder once and ends at the current
  folder. It is proved for every operation.
- **Icons and preview classification** (`Dashboard.FileIcon`, `FilePreview`,
  `PublicPreview`, `MyShares.TypeIcon`). These are ordered, first-match-wins rule lists
  over MIME types, file-name extensions and item types. The authenticated preview picks
  how the content is loaded (a text fetch with a bearer header, or a URL carrying the
  token). The public preview builds the link-token endpoint.
- **Credential store** (`Auth`). `localStorage` is a string map with the keys
  `jwt_token` and `phone_number`, next to the published "authenticated" flag.
- **Form validators and gating** (`Login`, `VerifyOtp`, `FolderCreate`, `Patterns`).
  Each regular expression is a string predicate, with JavaScript's `\d` (ASCII digits) and
  `\s` (ECMAScript white space and line terminators). A closed form is proved for each
  predicate. An invalid form returns before any service call. Each component decides
  where to navigate, or what the dialog closes with.
- **Share list** (`MyShares`). A load replaces the list or keeps it. A revocation needs
  a confirmation and reloads only on success. The expiry test is strict.

Backend replies are parameters of type `Outcome<T>` (`Ok(value)` or `Err`). A component
whose fields change is a `class` whose methods state the new state. Each asynchronous
load is one atomic step. The pure rules are functions, and their properties are lemmas.

Three points where the code's behaviour may be unexpected; the model follows the code:

- the phone pattern makes the leading `+` optional;
- a dashboard load changes the location and the trail before its fetch, so a failed
  fetch leaves the new trail next to the old listing;
- the code does not discard a late response (not modelled; see Left out).

## Model

| member | source | states |
|---|---|---|
| Dashboard.FindIndex | src/app/components/dashboard/dashboard.component.ts:73 | `findIndex` returns the first entry with the id, and -1 exactly when no entry has it |
| Dashboard.OrEmpty | src/app/components/dashboard/dashboard.component.ts:58-59 | a missing list becomes the empty list, and a present list is kept |
| Dashboard.TrailValid | src/app/components/dashboard/dashboard.component.ts:33-34 | the trail invariant (non-empty, Home first, distinct ids, last id is the current folder); under it the current folder is the root exactly when the trail is `[Home]` alone |
| Dashboard.EnterFolderTrail | src/app/components/dashboard/dashboard.component.ts:73-78 | the trail after entering a folder ends at that folder and is either a prefix of the old trail or the old trail plus one new entry `{id, name}` |
| Dashboard.NavigateTrail | src/app/components/dashboard/dashboard.component.ts:95-101 | the trail after clicking a breadcrumb ends at that breadcrumb's id, and is `[Home]` for the Home breadcrumb |
| Dashboard.InitialTrailValid | src/app/components/dashboard/dashboard.component.ts:33-34 | the initial trail `[Home]` at the root satisfies the trail invariant |
| Dashboard.EnterNewFolderAppends | src/app/components/dashboard/dashboard.component.ts:73-77 | entering a folder not on the trail adds exactly one entry `{id, name}` and keeps every earlier entry |
| Dashboard.EnterKnownFolderTruncates | src/app/components/dashboard/dashboard.component.ts:73-75 | entering a folder already on the trail cuts the trail to end at its first entry, and the new name is ignored |
| Dashboard.EnterFolderKeepsValid | src/app/components/dashboard/dashboard.component.ts:70-78 | from a valid trail, entering any folder gives a valid trail that ends at that folder |
| Dashboard.RootTrailIsHome | src/app/components/dashboard/dashboard.component.ts:50-51 | at the root, the only valid trail is `[Home]` |
| Dashboard.ReenterCurrentFolder | src/app/components/dashboard/dashboard.component.ts:207-214 | re-entering the current folder leaves a valid trail unchanged, whatever name is passed |
| Dashboard.NavigateToCrumbTruncates | src/app/components/dashboard/dashboard.component.ts:95-101 | clicking the k-th breadcrumb of a valid trail cuts the trail back to it, and clicking Home gives `[Home]` as `loadRootContent` does |
| Dashboard.JumpBackToAncestor | src/app/components/dashboard/dashboard.component.ts:73-77 | entering A, then B, then A again gives `[Home, A]` |
| Dashboard.DashboardComponent.constructor | src/app/components/dashboard/dashboard.component.ts:30-34 | empty listings, not loading, at the root with the trail `[Home]`, invariant holds |
| Dashboard.DashboardComponent.Settle | src/app/components/dashboard/dashboard.component.ts:57-65 | on success both listings are replaced (a missing one by `[]`), on failure both are kept, and loading ends either way |
| Dashboard.DashboardComponent.LoadRootContent | src/app/components/dashboard/dashboard.component.ts:48-66 | the root's folders and files are requested; the location becomes the root and the trail `[Home]` whatever it was; the listings follow the fetch outcome |
| Dashboard.DashboardComponent.LoadFolderContent | src/app/components/dashboard/dashboard.component.ts:68-93 | the folder's subfolders and files are requested; the location becomes the folder and the trail is the entered trail, even when the fetch fails; the invariant is preserved |
| Dashboard.DashboardComponent.NavigateToBreadcrumb | src/app/components/dashboard/dashboard.component.ts:95-101 | Home requests the root listing and any other crumb the listing of its id; the location becomes the crumb's id and the trail follows `NavigateTrail`; the invariant is preserved |
| Dashboard.DashboardComponent.RefreshCurrentView | src/app/components/dashboard/dashboard.component.ts:207-214 | under the invariant, the listing of the current location is requested (the root's when `currentFolderId` is null, else that folder's); the location and trail are unchanged and only the listings change |
| Dashboard.DashboardComponent.AfterDialogClosed | src/app/components/dashboard/dashboard.component.ts:122-126 | a truthy dialog result requests the current location's listing and loading ends false; otherwise nothing is requested and nothing changes |
| Dashboard.DashboardComponent.ConfirmDelete | src/app/components/dashboard/dashboard.component.ts:151-164 | the deletion is sent only after confirmation; only a successful deletion requests the current location's listing (loading then ends false); otherwise nothing is re-fetched and listings and loading flag are unchanged; location and trail never change |
| Dashboard.DashboardComponent.DeleteFile | src/app/components/dashboard/dashboard.component.ts:142-165 | after confirmation the file service is asked to delete `file.id`; the current location's listing is requested only after success |
| Dashboard.DashboardComponent.DeleteFolder | src/app/components/dashboard/dashboard.component.ts:167-191 | after confirmation the folder service is asked to delete `folder.id`; the current location's listing is requested only after success |
| Dashboard.FileIcon | src/app/components/dashboard/dashboard.component.ts:224-234 | `getFileIcon`, the first-match-wins table; it returns one of its nine icon names |
| Dashboard.FileIconMediaPrefix | src/app/components/dashboard/dashboard.component.ts:225-227 | an `image/`, `video/` or `audio/` prefix decides the icon, whatever else the type contains |
| Dashboard.FileIconDocumentWins | src/app/components/dashboard/dashboard.component.ts:228-229 | every non-media, non-PDF type containing "document" gets `description` |
| Dashboard.FileIconFallback | src/app/components/dashboard/dashboard.component.ts:224-234 | the generic icon is given exactly when no rule's test holds |
| Dashboard.OfficeSheetShownAsDocument | src/app/components/dashboard/dashboard.component.ts:229-231 | as written, every non-media, non-PDF type containing "officedocument" gets `description`, so Office Open XML (and OpenDocument) spreadsheets and presentations never get their icons |
| Dashboard.LegacyExcelIcon | src/app/components/dashboard/dashboard.component.ts:230 | the legacy `application/vnd.ms-excel` type still gets the spreadsheet icon |
| Dashboard.LegacyPowerpointIcon | src/app/components/dashboard/dashboard.component.ts:231 | the legacy `application/vnd.ms-powerpoint` type still gets the presentation icon |
| Dashboard.FileIconIntended | src/app/components/dashboard/dashboard.component.ts:224-234 | the icon table with the spreadsheet and presentation tests moved before the document test; it returns one of the same nine names |
| Dashboard.IntendedIconForOfficeTypes | src/app/components/dashboard/dashboard.component.ts:229-231 | with the rules reordered, spreadsheet types get `table_chart` and presentation types get `slideshow` |
| Dashboard.IntendedAgreesElsewhere | src/app/components/dashboard/dashboard.component.ts:224-234 | the reordered table agrees with the original on every type that mentions neither spreadsheets nor presentations |
| FilePreview.ClassifyMime | src/app/components/file-browser/file-preview/file-preview.component.ts:39-55 | each category holds exactly when its own test holds on the lowercased type: an `image/`, `video/`, `audio/` or `text/` prefix, or exactly `application/pdf` |
| FilePreview.ClassifyMimeIgnoresCase | src/app/components/file-browser/file-preview/file-preview.component.ts:40 | a type and its lowercase form are classified the same |
| FilePreview.PdfWithParametersIsUnsupported | src/app/components/file-browser/file-preview/file-preview.component.ts:42-54 | `application/pdf` followed by anything, such as a charset parameter, is unsupported |
| FilePreview.TokenText | src/app/components/file-browser/file-preview/file-preview.component.ts:58-64 | the stored token as a template literal prints it, and "null" when there is none |
| FilePreview.PreviewEndpoint | src/app/components/file-browser/file-preview/file-preview.component.ts:59 | the address is the API address, then `/files/`, the decimal id, then `/preview` |
| FilePreview.FilePreviewComponent.constructor | src/app/components/file-browser/file-preview/file-preview.component.ts:17-31 | no preview URL, loading, category unsupported, no text; the dialog data is kept; the category is not a folder (the viewer's type has no folder category) |
| FilePreview.FilePreviewComponent.DeterminePreviewType | src/app/components/file-browser/file-preview/file-preview.component.ts:39-55 | the category becomes `ClassifyMime` of the file's type |
| FilePreview.FilePreviewComponent.LoadPreview | src/app/components/file-browser/file-preview/file-preview.component.ts:57-83 | text is fetched from `/files/{id}/preview` with `Bearer {token}` and no URL is set; image, PDF, video and audio get the URL with `?token={token}`; unsupported does neither; loading ends on every path |
| FilePreview.FilePreviewComponent.NgOnInit | src/app/components/file-browser/file-preview/file-preview.component.ts:34-37 | classification followed by loading: a text request is made exactly for text files |
| PublicPreview.Extension | src/app/components/sharing/public-preview/public-preview.component.ts:60-61 | the extension has no dot, and a name without a dot is its own lowercased extension |
| PublicPreview.ExtensionAfterLastDot | src/app/components/sharing/public-preview/public-preview.component.ts:61 | the extension of `stem.ext` is the lowercased `ext`, whatever dots the stem has |
| PublicPreview.ClassifyExtension | src/app/components/sharing/public-preview/public-preview.component.ts:63-73 | image, pdf, video and audio each hold exactly for their listed extensions, and audio excludes what video lists |
| PublicPreview.ClassifyName | src/app/components/sharing/public-preview/public-preview.component.ts:58-74 | a name is classified by its extension; never text or folder, and a name without a dot is classified by its whole lowercased self |
| PublicPreview.OggIsVideo | src/app/components/sharing/public-preview/public-preview.component.ts:67-70 | `.ogg` and `.OGG` are video, because video is tested before audio |
| PublicPreview.BareNameIsItsOwnExtension | src/app/components/sharing/public-preview/public-preview.component.ts:60-66 | the name "PDF" previews as a PDF |
| PublicPreview.TrailingDotIsUnsupported | src/app/components/sharing/public-preview/public-preview.component.ts:61-73 | a name ending in a dot has the empty extension and is unsupported |
| PublicPreview.UnlistedExtensionIsUnsupported | src/app/components/sharing/public-preview/public-preview.component.ts:71-73 | an unlisted extension such as `exe` is unsupported |
| PublicPreview.PublicBaseUrlStripsTrailingApi | src/app/components/sharing/public-preview/public-preview.component.ts:77 | when the only `/api` in the API address is the one that ends it, the public base is the address without it |
| PublicPreview.PublicBaseUrl | src/app/components/sharing/public-preview/public-preview.component.ts:77 | an address without `/api` is kept; otherwise the first `/api` is removed and the text before and after it is kept |
| PublicPreview.PublicPreviewUrl | src/app/components/sharing/public-preview/public-preview.component.ts:78 | the public base, then `/public/shared/`, the link token and `/preview`; nothing else (no session token) |
| PublicPreview.PublicPreviewComponent.constructor | src/app/components/sharing/public-preview/public-preview.component.ts:19-23 | no share, no URL, loading, category unsupported, empty token; the category is not text |
| PublicPreview.PublicPreviewComponent.DeterminePreviewType | src/app/components/sharing/public-preview/public-preview.component.ts:58-74 | the category is the extension class of the item name, or of "" when there is no share, and never text |
| PublicPreview.PublicPreviewComponent.LoadPreview | src/app/components/sharing/public-preview/public-preview.component.ts:76-81 | the URL is the public base + `/public/shared/{token}/preview`, with no session credential, and loading ends |
| PublicPreview.PublicPreviewComponent.LoadShareInfo | src/app/components/sharing/public-preview/public-preview.component.ts:37-56 | the share is resolved for `linkToken`; a folder share sets the folder category and no URL; another share is classified and gets the URL; an error changes nothing but loading; the category stays non-text |
| PublicPreview.PublicPreviewComponent.NgOnInit | src/app/components/sharing/public-preview/public-preview.component.ts:32-35 | the link token is the route parameter, or "" when absent, and that token is the one resolved; the share's outcome then sets the state as in `LoadShareInfo` |
| Auth.GetItem | src/app/services/auth.service.ts:65-74 | a read yields a value exactly when the key is stored, and then the stored value |
| Auth.TokenPresent | src/app/services/auth.service.ts:79-81 | `!!getToken()`: the token key is stored with a non-empty value |
| Auth.SaveSession | src/app/services/auth.service.ts:39-60 | the store after a successful verification has both keys added, holding the response's token and phone number |
| Auth.ClearSession | src/app/services/auth.service.ts:86-90 | the store after logout lacks both keys and keeps every other entry |
| Auth.SaveSessionStores | src/app/services/auth.service.ts:39-60 | after verification the store holds the response's token and phone number, every other key is untouched, and the user counts as authenticated exactly when the token is non-empty |
| Auth.SaveSessionOverwrites | src/app/services/auth.service.ts:51-60 | a second verification replaces the first session entirely |
| Auth.ClearSessionRemoves | src/app/services/auth.service.ts:86-90 | after logout neither key is stored, every other key is untouched, and there is no token |
| Auth.ClearSessionIdempotent | src/app/services/auth.service.ts:86-90 | logging out twice is logging out once |
| Auth.ClearUndoesSave | src/app/services/auth.service.ts:86-90 | verifying and then logging out leaves the store as logging out alone would |
| Auth.AuthService.constructor | src/app/services/auth.service.ts:19 | the flag starts as whether a non-empty token is already stored |
| Auth.AuthService.GetToken | src/app/services/auth.service.ts:65-67 | the stored `jwt_token` value, and None exactly when the key is absent |
| Auth.AuthService.GetPhoneNumber | src/app/services/auth.service.ts:72-74 | the stored `phone_number` value, and None exactly when the key is absent |
| Auth.AuthService.HasToken | src/app/services/auth.service.ts:79-81 | true exactly when a token is stored and it is non-empty |
| Auth.AuthService.RequestOTP | src/app/services/auth.service.ts:27-30 | the phone number is sent, the reply is passed on, and nothing is stored |
| Auth.AuthService.VerifyOTP | src/app/services/auth.service.ts:35-46 | on success the response's token and phone number (not the argument) are stored and the flag is raised; on failure nothing changes |
| Auth.AuthService.Logout | src/app/services/auth.service.ts:86-90 | both keys are removed and the flag is lowered, agreeing with the store |
| Patterns.DigitsRepeatIsDigitRun | src/app/components/auth/login/login.component.ts:29 | `\d{min,max}` matches exactly the strings of `min` to `max` ASCII digits |
| Login.PhoneDigits | src/app/components/auth/login/login.component.ts:29 | the number without its optional leading `+` |
| Login.PhoneBodyShape | src/app/components/auth/login/login.component.ts:29 | `[1-9]\d{1,14}` matches exactly 2 to 15 ASCII digits not starting with 0 |
| Login.ValidPhone | src/app/components/auth/login/login.component.ts:27-30 | `required` plus the pattern: a phone is accepted exactly when, after an optional `+`, it is 2 to 15 ASCII digits not starting with 0 |
| Login.PhonePatternConsequences | src/app/components/auth/login/login.component.ts:29 | a leading 0 is refused with or without `+`, "+1" is refused, and an accepted number has 2 to 16 characters |
| Login.LoginComponent.constructor | src/app/components/auth/login/login.component.ts:18 | not loading |
| Login.LoginComponent.OnSubmit | src/app/components/auth/login/login.component.ts:34-79 | the OTP is requested only for a valid number; the page moves to verification, carrying the number and the reply's OTP, exactly when the request succeeded with `success` |
| VerifyOtp.ValidOtp | src/app/components/auth/verify-otp/verify-otp.component.ts:28-33 | `required` plus `^\d{6}$`: a code is accepted exactly when it is six ASCII digits |
| VerifyOtp.RouteState | src/app/components/auth/login/login.component.ts:57-62 | only the verification route carries navigation state |
| VerifyOtp.InitialPhone | src/app/components/auth/verify-otp/verify-otp.component.ts:37-38 | the state's phone number, or "" when there is no state or no number |
| VerifyOtp.InitialOtp | src/app/components/auth/verify-otp/verify-otp.component.ts:37-39 | the state's OTP, or "" when there is no state or no OTP |
| VerifyOtp.LoginHandOver | src/app/components/auth/login/login.component.ts:57-62 | after login navigates here, the page holds the number the user typed, which is non-empty, so the page does not redirect |
| VerifyOtp.VerifyOtpComponent.constructor | src/app/components/auth/verify-otp/verify-otp.component.ts:35-46 | the phone number and development OTP are read from the navigation state, with "" as the default |
| VerifyOtp.VerifyOtpComponent.NgOnInit | src/app/components/auth/verify-otp/verify-otp.component.ts:48-53 | the page redirects to login exactly when it has no phone number |
| VerifyOtp.VerifyOtpComponent.OnSubmit | src/app/components/auth/verify-otp/verify-otp.component.ts:55-90 | the code is verified only when valid; the dashboard opens exactly when the verification succeeded, with the session stored; otherwise the store is unchanged |
| VerifyOtp.VerifyOtpComponent.ResendOTP | src/app/components/auth/verify-otp/verify-otp.component.ts:92-116 | a new code is requested for the same number; only a reply with `success` replaces the development OTP, with "" when the reply has none |
| FolderCreate.NameClassPlusIsCharRun | src/app/components/file-browser/folder-create/folder-create.component.ts:31 | `[a-zA-Z0-9\s._-]+` matches exactly the non-empty strings of class characters |
| FolderCreate.ValidFolderName | src/app/components/file-browser/folder-create/folder-create.component.ts:28-32 | `required`, `maxLength(255)` and the pattern: a name is accepted exactly when it has 1 to 255 characters, all from the class |
| FolderCreate.BlankNameAccepted | src/app/components/file-browser/folder-create/folder-create.component.ts:29-31 | a name made only of white space is accepted |
| FolderCreate.InvalidFolderNames | src/app/components/file-browser/folder-create/folder-create.component.ts:30-31 | one character outside the class, such as `/`, or a 256th character makes a name invalid |
| FolderCreate.RootIfFalsy | src/app/components/file-browser/folder-create/folder-create.component.ts:45 | a missing or 0 parent id becomes the root, and any other id is kept |
| FolderCreate.CreateFolderCall | src/app/services/folder.service.ts:19-25 | the request carries the name, and the parent id or `null` for a missing or 0 id |
| FolderCreate.ParentMappingIdempotent | src/app/components/file-browser/folder-create/folder-create.component.ts:45 | the dialog's and the service's falsy-id mappings compose to one, so parent 0 means the root |
| FolderCreate.FolderCreateComponent.constructor | src/app/components/file-browser/folder-create/folder-create.component.ts:18-25 | keeps the dialog's parent folder and is not creating |
| FolderCreate.FolderCreateComponent.Create | src/app/components/file-browser/folder-create/folder-create.component.ts:36-58 | the folder is requested only for a valid name; the dialog closes with `true` exactly when the request succeeded, and stays open otherwise |
| FolderCreate.FolderCreateComponent.Cancel | src/app/components/file-browser/folder-create/folder-create.component.ts:60-62 | the dialog closes with `false` |
| MyShares.IsExpired | src/app/components/sharing/my-shares/my-shares.component.ts:80-82 | `new Date(expiresAt) < new Date()` on millisecond times: an unparseable date is never expired, and a link is not expired at its own expiry time |
| MyShares.IsExpiredProperties | src/app/components/sharing/my-shares/my-shares.component.ts:80-82 | the comparison is strict, an unparseable date never expires, and an expired link stays expired as time moves on |
| MyShares.TypeIcon | src/app/components/sharing/my-shares/my-shares.component.ts:84-86 | the file icon exactly for "file", and the folder icon for anything else |
| MyShares.MySharesComponent.constructor | src/app/components/sharing/my-shares/my-shares.component.ts:20-21 | an empty list, not loading |
| MyShares.MySharesComponent.LoadShares | src/app/components/sharing/my-shares/my-shares.component.ts:35-48 | a reply replaces the list wholesale, in server order and unfiltered; an error keeps it; loading ends either way |
| MyShares.MySharesComponent.RevokeShare | src/app/components/sharing/my-shares/my-shares.component.ts:55-78 | revocation is requested with the share's id only after confirmation, and the list is reloaded only after a successful revocation, after which loading ends false even if the reload fails |

## Left out

- HTTP: the services' requests are modelled by what they send and by an `Ok`/`Err`
  parameter for the reply. Error messages taken from a reply are not modelled.
- Dashboard.DashboardComponent.LoadFolderContent: the two requests joined by
  `Promise.all` are one atomic step. Overlapping loads and late responses are not
  modelled; the code has no cancellation either.
- FilePreview.FilePreviewComponent.LoadPreview: `fetch` does not reject on an HTTP error
  status, so the body of an error page becomes the text content. `Ok` stands for any
  response body and `Err` for a network failure; the status is not modelled.
- Strings.Lower: only ASCII letters are lowercased. In JavaScript, only U+212A (Kelvin
  sign) and U+0130 lowercase to ASCII letters, and none of the classified patterns is
  affected.
- FolderCreate.ValidFolderName: `maxLength` counts UTF-16 code units, and the model counts
  characters. They differ only for characters outside the Basic Multilingual Plane, and
  the pattern refuses those anyway.
- MyShares.IsExpired: date parsing and the clock are left out. Times are given as
  milliseconds, and an unparseable date is `None`.
- `formatFileSize` in the dashboard and the preview: floating-point `log`, `pow` and
  `round`.
- UI effects: snackbars, the confirmation dialogs (reduced to a `confirmed` flag), router
  navigation (reduced to a returned route), the clipboard, the `DomSanitizer` bypass
  (preview URLs are plain strings), file download, and console logging of OTPs.
- The upload dialog, share dialog and navbar components: glue around one service call
  each. The upload dialog's effect on the dashboard is `AfterDialogClosed`.
- Routing configuration and the authentication guard: configuration only, and the guard
  is not part of this model.

## Findings

| source | as written | input that shows it | evidently intended | confidence | as-written member | corrected member |
|---|---|---|---|---|---|---|
| src/app/components/dashboard/dashboard.component.ts:229-231 | the "document" test comes before the spreadsheet and presentation tests, and every Office Open XML type contains "officedocument" | `application/vnd.openxmlformats-officedocument.spreadsheetml.sheet` gets `description` | spreadsheets get `table_chart` and presentations get `slideshow` | not executed | Dashboard.OfficeSheetShownAsDocument | Dashboard.FileIconIntended, Dashboard.IntendedIconForOfficeTypes |
