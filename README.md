# Komorebi core, modelled in Dafny

Komorebi is a private photo-sharing app: people join rooms, upload photos and short
videos to a room, and see a daily feed plus "flashbacks" of the same day in earlier
years. This project models the parts of the mobile app and its web prototype that
carry real logic, and proves what they promise:

- **Media upload** (`MediaService`): `pickAndUploadMedia` is modelled as a class
  `Backend`. It holds the storage service, a map from (bucket, path) to object with
  upsert writes, and the append-only `media` table. The picker, image manipulator,
  thumbnailer, clock, storage writes and the database insert are oracles bundled in an
  `Oracles` value. `Pipeline` is the specification: the effects in order and the
  outcome. The methods are proved to produce exactly that, and the lemmas state what
  the pipeline guarantees.
- **Database schema** (`Schema`): the tables, the insert shapes and the declared
  foreign keys of the generated Supabase types. A `Db` is a record of row sets, with a
  `Valid` predicate. Each insert succeeds exactly when the declared keys hold, reports
  the violated constraint by name otherwise, and preserves `Valid`. The four server
  functions are uninterpreted.
- **Auth forms** (`AuthValidation`, `SignUp`, `SignIn`): the email rule as a
  character-level check, proved equal to the regular expression
  `^[^\s@]+@[^\s@]+\.[^\s@]+$`. Also modelled: the field-error computation of each form
  as a method with its sequential checks, the request each form sends, the server-error
  wording, and the screen state (`loading`, `error`, `fieldErrors`, `confirmed`) as a
  class whose handler is split at the await.
- **Feed and navigation** (`Feed`, `MobileApp`, `WebApp`): today's photos, flashbacks,
  the selected room and its photos, uploader attribution, and the app shells' tab and
  room navigation with the splash and session gates.

`Text` models the JavaScript string operations the code relies on: `trim` with its
whitespace set, `toLowerCase`, `includes`, `startsWith`, `split(c)[0]`,
`split(c).pop()` and decimal rendering of a number. `Wrappers` holds `Option` and
`Result`.

Points where the code's behaviour is easy to misread, modelled as written:

- The declared keys of `invites` are two independent single-column keys, one to
  `groups` and one to `rooms` (mobile/src/types/supabase.ts:177-191). An invite whose
  group lies in another room is therefore accepted (`Schema.InviteKeysIndependent`).
- The code only asks the image manipulator for a resize to width 1440
  (mobile/src/services/mediaService.ts:63). The model makes no claim about the width
  of the file that comes back.
- Sign-up accepts passwords of 8 UTF-16 code units or more. Its message for an empty
  password still says "at least 10 characters".
- Password lengths are JavaScript `.length`, counted in UTF-16 code units
  (`Text.Utf16Length`), so a character outside the Basic Multilingual Plane counts twice.

## Model

| member | source | states |
|---|---|---|
| MediaService.GetExt | mobile/src/services/mediaService.ts:13-16 | The extension is never empty and holds no '.' or '?'; it is "jpg" or no longer than the URI |
| MediaService.GetExtOfNamedFile | mobile/src/services/mediaService.ts:13-16 | For `name.ext` followed by nothing or by a `?query`, the extension is `ext` lower-cased |
| MediaService.GetExtTrailingDot | mobile/src/services/mediaService.ts:13-16 | A name ending in '.', with or without a query, gets "jpg": the empty text after the last '.' is falsy |
| MediaService.GetExtWithoutDot | mobile/src/services/mediaService.ts:13-16 | With no '.' before the query, the whole lower-cased part before the query is the extension; "jpg" only when that part is empty |
| MediaService.VideoContentType | mobile/src/services/mediaService.ts:88 | video/quicktime exactly for "mov", video/mp4 for every other extension |
| MediaService.MediaPath | mobile/src/services/mediaService.ts:58-87 | A media path starts with the `{roomId}/{uploaderId}/{timestamp}` stem |
| MediaService.ThumbPath | mobile/src/services/mediaService.ts:94 | A thumbnail path starts with the same stem |
| MediaService.MediaPathInjective | mobile/src/services/mediaService.ts:58-87 | With '/'-free ids, equal media paths mean equal room, uploader, timestamp and extension |
| MediaService.ThumbPathDiffers | mobile/src/services/mediaService.ts:86-94 | A thumbnail path is never the path of its video |
| MediaService.ThrownMessage | mobile/src/services/mediaService.ts:52-56 | The duration gate throws "Video must be 2 minutes or less." and the URI check "Invalid media URI"; the other errors carry no message of the upload's own |
| MediaService.RunShape | mobile/src/services/mediaService.ts:40-115 | A run either has no effects, or it puts the main file, then maybe the thumbnail, then maybe the row, and its outcome follows from how far it got |
| MediaService.EarlyFailureThrows | mobile/src/services/mediaService.ts:60-90 | A checked asset whose resize or main upload fails makes the run throw ManipulateFailed (photo not resized) or StorageWriteFailed, with no effects, never a null result |
| MediaService.RowsOfRun | mobile/src/services/mediaService.ts:70-112 | A run inserts at most one row: the requested row, exactly when the main file was stored and the insert accepted |
| MediaService.CancelTouchesNothing | mobile/src/services/mediaService.ts:47 | When the picker answers with a cancelled pick or one without assets, the run returns null with no effects |
| MediaService.PickerFailureTouchesNothing | mobile/src/services/mediaService.ts:40-44 | A rejected picker fails the run, and only a rejected picker gives PickerFailed; nothing is stored or inserted |
| MediaService.DurationGate | mobile/src/services/mediaService.ts:9-54 | Fails with VideoTooLong iff the asset is a video longer than 120000 ms, with no effects |
| MediaService.TwoMinutesExactlyPasses | mobile/src/services/mediaService.ts:9-52 | Exactly 120000 ms, zero and a missing length pass the gate; a longer one trips it |
| MediaService.MissingUriChecked | mobile/src/services/mediaService.ts:52-56 | Fails with InvalidMediaUri iff the duration gate passed and the URI is null or empty, with no effects |
| MediaService.InsertFollowsMainUpload | mobile/src/services/mediaService.ts:68-112 | A run that inserts a row starts with the main put into `media` and ends with the insert, whose url is that file's public URL; a failed main upload leaves no effects |
| MediaService.InsertFailureOrphansFile | mobile/src/services/mediaService.ts:68-112 | A refused insert fails with InsertFailed, adds no row, and leaves the main file stored at its key |
| MediaService.StoredKeepsKeys | mobile/src/services/mediaService.ts:22-25 | Upserts never remove a stored key |
| MediaService.StoredKeepsOthers | mobile/src/services/mediaService.ts:22-25 | Puts to other keys leave a stored object unchanged |
| MediaService.ThumbnailBestEffort | mobile/src/services/mediaService.ts:91-114 | A stored and accepted video succeeds whatever happens to the thumbnail; the result and the row carry a thumbnail URL iff it was extracted and stored |
| MediaService.PhotosHaveNoThumbnail | mobile/src/services/mediaService.ts:60-84 | A photo run writes only to `media`, and neither row nor result has a thumbnail; the kind is photo |
| MediaService.ResultMatchesRow | mobile/src/services/mediaService.ts:83-114 | A successful result reports the asset's kind and the id, url and thumbnail of the one inserted row, which names the room and uploader |
| MediaService.PathsBucketsAndTypes | mobile/src/services/mediaService.ts:6-95 | Every path shares the stem; photos go to `media` as .jpg image/jpeg; videos go to `media` under GetExt with VideoContentType; thumbnails go to `media-thumbs` as -thumb.jpg image/jpeg |
| MediaService.Backend.UploadFile | mobile/src/services/mediaService.ts:18-31 | Upsert at exactly (bucket, path), every other key kept, the public URL returned; a failure changes nothing |
| MediaService.Backend.InsertMedia | mobile/src/services/mediaService.ts:70-81 | Appends the row and returns its id; a refusal leaves the table unchanged |
| MediaService.Backend.PickAndUploadMedia | mobile/src/services/mediaService.ts:40-115 | The outcome, the new storage, the new table and the effect log are exactly those of `Pipeline` |
| MediaService.Backend.UploadPhoto | mobile/src/services/mediaService.ts:60-84 | The photo branch produces exactly `PhotoRun` |
| MediaService.Backend.UploadVideo | mobile/src/services/mediaService.ts:86-114 | The video branch produces exactly `VideoRun`: path under GetExt, type from VideoContentType |
| MediaService.Backend.UploadVideoAt | mobile/src/services/mediaService.ts:89-114 | From the upload of the file on, the video branch produces exactly `VideoRunAt`, including the caught thumbnail failure |
| Schema.InviteOf | mobile/src/types/supabase.ts:141-164 | Redemption columns and expiry are null unless supplied; an omitted is_revoked takes the default |
| Schema.MediaOf | mobile/src/types/supabase.ts:195-212 | Room, uploader, type and url are as supplied; id and created_at default; an omitted thumbnail is null |
| Schema.EmptyValid | mobile/src/types/supabase.ts:15-368 | The empty database satisfies every key |
| Schema.InsertRoom | mobile/src/types/supabase.ts:342-368 | Succeeds iff the id is free, adds the row, keeps Valid |
| Schema.InsertGroup | mobile/src/types/supabase.ts:108-139 | Succeeds iff the id is free and the room exists; a failure names the violated key; keeps Valid |
| Schema.InsertGroupMember | mobile/src/types/supabase.ts:69-107 | Succeeds iff the id is free, (group_id, room_id) matches a group and the room exists; failures name group_members_group_room_fk or group_members_room_id_fkey; keeps Valid |
| Schema.InsertInvite | mobile/src/types/supabase.ts:140-193 | Succeeds iff the id is free, the group exists and the room exists, checked independently; keeps Valid |
| Schema.InsertMedia | mobile/src/types/supabase.ts:194-231 | Succeeds iff the id is free and the room exists; keeps Valid |
| Schema.InsertComment | mobile/src/types/supabase.ts:17-68 | Succeeds iff the id is free and the group, media and room keys all hold; failures name the key; keeps Valid |
| Schema.InsertReaction | mobile/src/types/supabase.ts:232-283 | The same three couplings as comments; keeps Valid |
| Schema.InsertRoomAdmin | mobile/src/types/supabase.ts:284-312 | Succeeds iff the id is free and the room exists; keeps Valid |
| Schema.InsertRoomSettings | mobile/src/types/supabase.ts:313-341 | Succeeds iff the room exists and has no settings row yet; keeps Valid |
| Schema.MembershipStaysInRoom | mobile/src/types/supabase.ts:91-98 | In a valid database a membership's group lies in the membership's room |
| Schema.CommentStaysInRoom | mobile/src/types/supabase.ts:45-66 | A comment's group and media item belong to its room, which exists |
| Schema.ReactionStaysInRoom | mobile/src/types/supabase.ts:260-281 | A reaction's group and media item belong to its room, which exists |
| Schema.CompositeKeyImpliesRoom | mobile/src/types/supabase.ts:91-105 | A composite (group, room) key that holds implies the room exists |
| Schema.SettingsOneToOne | mobile/src/types/supabase.ts:332-339 | After a settings insert the room has exactly one settings row |
| Schema.InviteKeysIndependent | mobile/src/types/supabase.ts:177-191 | An invite whose group is in another room is accepted and the database stays valid |
| Schema.Rpc | mobile/src/types/supabase.ts:373-384 | accept_invite takes only a token and returns (group_id, room_id) pairs; the three checks take one id and return a boolean |
| AuthValidation.ValidateEmail | mobile/src/screens/SignUpScreen.tsx:39-42 | The rule is tested on the trimmed value; an accepted value is never blank and is at least 5 characters once trimmed |
| AuthValidation.EmailShapeIsRegex | mobile/src/screens/SignUpScreen.tsx:40 | The character-level check accepts exactly the strings the regular expression matches |
| AuthValidation.EmailHasOneAt | mobile/src/screens/SignInScreen.tsx:32 | An accepted address holds exactly one '@' |
| AuthValidation.ShapeSplits | mobile/src/screens/SignUpScreen.tsx:40 | An accepted string splits as local part, '@', host, '.', top-level part, each without whitespace or '@' |
| AuthValidation.MatchIsShape | mobile/src/screens/SignUpScreen.tsx:40 | Any such split is accepted, and the local part is everything before the first '@' |
| SignUp.Errors | mobile/src/screens/SignUpScreen.tsx:46-52 | Each name has its message iff blank and is clear otherwise; email is "enter" iff blank, "valid" iff non-blank and rejected, clear iff accepted; password is the 10-character message iff empty, the 8-character one iff 1 to 7 UTF-16 units long, clear iff 8 or more |
| SignUp.ComputeErrors | mobile/src/screens/SignUpScreen.tsx:46-52 | The sequential checks, a later message overwriting an earlier one, yield `Errors` |
| SignUp.RequestWellFormed | mobile/src/screens/SignUpScreen.tsx:53-69 | A request sent after clean validation has a valid trimmed email, the raw password of 8 or more UTF-16 units, non-blank trimmed names, and full_name = first + " " + last |
| SignUp.MapError | mobile/src/screens/SignUpScreen.tsx:70-76 | A lower-cased message containing "already registered" or "already exists" becomes "this email is already being used"; any other message is shown as sent |
| SignUp.MapErrorIgnoresCase | mobile/src/screens/SignUpScreen.tsx:71-72 | Two messages equal in lower case are both replaced or both shown as sent |
| SignUp.MapErrorExamples | mobile/src/screens/SignUpScreen.tsx:71-72 | "Already registered" and "ALREADY EXISTS" are replaced |
| SignUp.Form.Submit | mobile/src/screens/SignUpScreen.tsx:44-58 | Errors reset; field errors stored; a request exists iff no field erred, and then `loading` is set; otherwise nothing is sent |
| SignUp.Form.Complete | mobile/src/screens/SignUpScreen.tsx:70-80 | An error is shown mapped; success sets `confirmed`; `loading` is cleared on both outcomes |
| SignIn.Errors | mobile/src/screens/SignInScreen.tsx:38-42 | Email as in sign-up; the password errs with the single 10-character message iff shorter than 10 UTF-16 units, empty included |
| SignIn.ComputeErrors | mobile/src/screens/SignInScreen.tsx:38-42 | The sequential checks yield `Errors` |
| SignIn.RequestWellFormed | mobile/src/screens/SignInScreen.tsx:43-52 | A request sent after clean validation has a valid trimmed email and the raw password of 10 or more UTF-16 units |
| SignIn.ThresholdsDiffer | mobile/src/screens/SignInScreen.tsx:42 | A password of 8 or 9 UTF-16 units is refused here |
| SignIn.MapError | mobile/src/screens/SignInScreen.tsx:53-63 | "invalid login credentials", "invalid credentials" or "user not found" in any case become "Sorry, this account doesn't exists"; anything else is shown as sent |
| SignIn.MapErrorIgnoresCase | mobile/src/screens/SignInScreen.tsx:54-58 | Two messages equal in lower case are both replaced or both shown as sent |
| SignIn.MapErrorExamples | mobile/src/screens/SignInScreen.tsx:54-58 | "Invalid credentials" and "User Not Found" are replaced |
| SignIn.Form.Submit | mobile/src/screens/SignInScreen.tsx:36-48 | Errors reset; field errors stored; a request exists iff no field erred, and then `loading` is set |
| SignIn.Form.Complete | mobile/src/screens/SignInScreen.tsx:53-65 | An error is shown mapped; `loading` is cleared whether or not an error occurred |
| Text.Trim | mobile/src/screens/SignUpScreen.tsx:41 | The result has no whitespace at either end and is empty iff the input is all whitespace |
| Text.TrimKeepsMiddle | mobile/src/screens/SignUpScreen.tsx:41 | The result is a contiguous piece of the input, and everything cut on either side is whitespace |
| Text.Utf16Length | mobile/src/screens/SignUpScreen.tsx:52 | `.length` counts at least one and at most two units per character, and is zero only for the empty string |
| Text.Utf16LengthSingle | mobile/src/screens/SignUpScreen.tsx:52 | One character counts two units exactly when it is at or above U+10000, one otherwise |
| Text.Utf16LengthBmp | mobile/src/screens/SignUpScreen.tsx:52 | Without characters beyond the Basic Multilingual Plane, `.length` is the number of characters |
| Text.Utf16LengthAppend | mobile/src/screens/SignUpScreen.tsx:52 | The length of a concatenation is the sum of the lengths |
| Text.TrimmedJoined | mobile/src/screens/SignUpScreen.tsx:66 | Two non-blank trimmed strings joined by a separator are left whole by a further trim |
| Text.Decimal | mobile/src/services/mediaService.ts:58-67 | The rendering of a timestamp is non-empty, all digits, and starts with '0' only for zero |
| Text.DecimalRoundTrip | mobile/src/services/mediaService.ts:58-67 | The decimal rendering of a timestamp reads back as the same number |
| Feed.Filter | mobile/App.tsx:53 | The filter keeps exactly the elements that pass and never grows |
| Feed.FilterAppend | mobile/App.tsx:53 | Filtering distributes over concatenation, so the original order is kept |
| Feed.TodayPhotos | mobile/App.tsx:51-54 | Exactly the photos whose timestamp starts with today's date (also App.tsx:21-24) |
| Feed.Flashbacks | mobile/App.tsx:56-66 | Exactly the photos of today's day and month in an earlier year, so none of the current year (also App.tsx:27-35) |
| Feed.TodayIsNoFlashback | mobile/App.tsx:51-66 | When a timestamp's calendar year agrees with its date prefix, no photo is both today's and a flashback |
| Feed.SelectedRoom | mobile/App.tsx:68 | The first room whose id is the selected one, found iff some room has it; nothing when none is selected (also App.tsx:37-39) |
| Feed.RoomPhotos | mobile/App.tsx:69 | Exactly the photos of the selected room; none when nothing is selected (also App.tsx:41-43) |
| Feed.Uploader | mobile/App.tsx:230-233 | The current user for their own photos, the 'u-2' placeholder for every other (also App.tsx:191) |
| Feed.UploaderAttribution | mobile/App.tsx:230-233 | The card names the real uploader iff it is the current user or 'u-2' |
| MobileApp.Screen | mobile/App.tsx:71-283 | Splash iff either loading flag is up; sign-in iff loaded and no session; otherwise the tab, with the vault only for a found room and a session |
| MobileApp.Shell.constructor | mobile/App.tsx:23-27 | Starts on HOME with no room, both loading flags up and no session, so on the splash |
| MobileApp.Shell.PressTab | mobile/App.tsx:258-273 | Sets the tab and clears the selected room, closing the vault |
| MobileApp.Shell.PressRoom | mobile/App.tsx:105 | Selects the pressed room, whose vault is then shown |
| MobileApp.Shell.SelectionShown | mobile/App.tsx:68-283 | Past the splash and sign-in, the vault is open exactly when a room is selected |
| MobileApp.Shell.Back | mobile/App.tsx:280 | Clears the selection and keeps the tab |
| MobileApp.Shell.SplashTimerDone | mobile/App.tsx:29-32 | Lowers `isLoading` |
| MobileApp.Shell.SessionLoaded | mobile/App.tsx:34-39 | Stores the session and lowers `authLoading`; once loaded, sign-in shows iff there is no session |
| MobileApp.Shell.AuthStateChanged | mobile/App.tsx:42-44 | Stores the new session; without one the main view is not shown |
| WebApp.Screen | App.tsx:45-274 | Splash iff loading; otherwise the tab, with the vault iff a selected room was found |
| WebApp.Shell.constructor | App.tsx:10-12 | Starts on HOME with no room, loading, so on the splash |
| WebApp.Shell.PressTab | App.tsx:227-262 | Sets the tab and clears the selected room |
| WebApp.Shell.PressRoom | App.tsx:75 | Selects the clicked room, whose vault is then shown |
| WebApp.Shell.Back | App.tsx:271 | Clears the selection and keeps the tab |
| WebApp.Shell.SplashTimerDone | App.tsx:15-18 | Lowers `isLoading`, showing the active tab |

## Left out

- Image resizing and compression and video-thumbnail extraction are library calls. They appear only as oracle outcomes: the manipulated file or nothing, the thumbnail or nothing. The 1440 width and the 0.72 quality are kept as constants, with no claim about the output.
- The `fetch`/`blob` read of a file is not modelled separately. A failed read counts as a failed upload, and both throw.
- Storage `getPublicUrl` is an arbitrary function of (bucket, path). `Date.now()` is an oracle value; one timestamp is shared by every path of a run.
- Time zones are left out. `new Date().toISOString()` gives a UTC date, while `getDate`/`getMonth`/`getFullYear` read local time. The model takes today's date prefix, today's calendar date and the parsing of a timestamp (`dateOf`) as parameters.
- SignUp.Errors, SignIn.Errors: a Dafny `char` is a Unicode scalar value, so a password holding a lone surrogate, which JavaScript strings allow, cannot be given to the model; every other string is counted in UTF-16 units as `.length` does.
- Text.Lower: `toLowerCase` is modelled for ASCII letters only. Unicode case mapping is left out.
- Numbers are left out as JavaScript numbers. A duration is a `real`, so NaN is not modelled. The timestamp is a natural number.
- The `Update` shapes of every table are left out: the client never updates a row.
- The type-level helpers `Tables`, `TablesInsert`, `TablesUpdate`, `Enums`, `CompositeTypes` and `Constants` (mobile/src/types/supabase.ts:394-515) are left out. They have no runtime behaviour.
- Schema.KeysUnique: the types declare no primary keys. The model assumes `id` is unique in each table and `room_id` is unique in `room_settings`, which the types mark one-to-one.
- Schema.Rpc: the bodies of `accept_invite`, `is_room_member`, `is_room_admin` and `is_group_member` are not part of this model. Only their signatures exist, so they are uninterpreted functions.
- The `supabase.auth` calls, the session listener's subscription, and mobile/src/screens/AuthScreen.tsx are left out. Their replies are parameters of `Complete`, `SessionLoaded` and `AuthStateChanged`.
- The AI caption services, the presentation components, styles, configuration and mock fixtures are not part of this model.
- Concurrency is left out. Each handler runs as a sequence of awaits with no interleaving. The sign-up and sign-in handlers are split at their one await into `Submit` and `Complete`.
- Rendering of the tab contents (room cards, drop list, plan page) is left out. `View` records only which screen and tab are shown and whether the vault is open.
