# pistol-lol profile store, in Dafny

A model of the account core of pistol-lol, a link-in-bio site. The core has
five parts:

- **The user store** (`src/lib/db.ts`). This is one SQLite table of users. Each
  row holds a username, a plaintext password and a customizable profile. The
  store supports `create`, the lookups `findByUid` and `findByUsername`,
  `authenticate`, and the allowlisted partial `update`.
- **The user types and constants** (`src/lib/types.ts`). These are the user
  record, `DEFAULT_USER` and the catalogue of 40 link platforms.
- **The three account routes**: signup, login and profile update. Each is a pure
  function. Signup and login take the table, the credentials and whether the
  server runs in production. The profile update takes the table, the value of
  the `userId` session cookie, if any, and the partial update. Each returns the
  response: status, JSON body and the cookie it sets. Signup and the profile update also return
  the table afterwards; login returns only the response, because it never
  changes the table.
- **The links editor** (`src/app/account/links/page.tsx`). Its dialog state,
  `addLink`, `saveLink` and `removeLink` are transitions on the dialog and on
  the ordered link list.
- **The client session provider** (`src/lib/auth.tsx`). It is a state machine
  over `currentUser` and `loading`. The outcome of every `fetch` is an input.

Modules:

- `Wrappers`: `Option` and `Result`.
- `Types`: the user record, fields by name, partial updates and `DEFAULT_USER`.
- `Platforms`: the catalogue.
- `Db`: the table.
- `Api`: the routes, the session cookie and decimal `uid.toString()` /
  `parseInt`.
- `Links`: the editor, plus an event model of the page.
- `Auth`: the provider.

How the table is represented:

- It is a map from uid to `Row`.
- A `Row` holds each column in its SQL storage type. Toggles are INTEGER 0/1.
  `links` is JSON text, represented by the list it denotes.
- `lastUid` is the AUTOINCREMENT counter.
- `Valid` is the invariant the schema keeps:
  - every uid is between 1 and the counter, and no larger than SQLite's largest
    rowid;
  - every row carries its own uid;
  - usernames are distinct.
- Reads go through `Decode`. It applies `Boolean()` to the toggles and parses
  `links`.

A partial update is a map from keys to JSON values. A key names either a field
or an unknown property. `WellTyped` says that each named field carries a value
of its declared TypeScript type. That is the type `Partial<UserProfile>` gives
the callers. Status codes carry the meanings of section 15 of RFC 9110.

Behaviours of the code that the model keeps, and the lemmas that state them:

- **Case of usernames.** The UNIQUE constraint on the username column is
  case-sensitive, so `create` alone accepts 'bob' when 'Bob' is stored. Only
  signup's prior `LOWER()` lookup keeps case variants out
  (`Api.CreateAdmitsCaseVariant`, `Api.SignupAvoidsUniqueViolation`). That
  lowering is SQLite's built-in one, which folds ASCII letters only
  (`Db.FoldingIsAsciiOnly`).
- **Empty updates.** An update with no allowlisted key returns false, and the
  profile route answers it with 500 "Failed to update profile".
- **Failed updates on the client.** The optimistic value is replaced only when
  some request answers ok: the PUT, the /me fetch after a PUT that is not ok,
  or the /me fetch of the catch block. When every one of them fails, the
  merged value stays on screen (`Auth.FailedUpdateKeepsMerge`).
- **Identity fields on the client.** The client merge also applies `uid` and
  `username` keys to the local user, although the server ignores them.
- **Storing booleans.** Booleans are stored as INTEGER 0/1 and read back with
  `Boolean()`.
- **Property names.** A key of a request object that is spelled like a field
  is that field, so `WellTyped` admits no unknown key with a field's name
  (`Types.FieldName`).

## Model

| member | source | states |
|---|---|---|
| Types.StripHidesOnlyPassword | src/app/api/auth/signup/route.ts:45-47 | the user a route sends out shows every stored field except the password, which it does not have |
| Types.ProfileFieldsTyped | src/lib/types.ts:1-36 | a customizable field is exactly a field other than uid, username and password, and its value has the field's declared type |
| Types.UserFieldsTyped | src/lib/types.ts:1-36 | every field of a stored user, uid, username and password included, has its declared type |
| Types.ProfileExtensionality | src/lib/types.ts:1-36 | two profiles whose fields all read alike are the same profile |
| Types.PublicExtensionality | src/lib/types.ts:1-36 | two outgoing users whose fields all read alike are the same user |
| Types.DefaultTogglesOff | src/lib/types.ts:103-108 | every toggle of DEFAULT_USER is off |
| Types.DefaultUserShape | src/lib/types.ts:88-110 | DEFAULT_USER has opacity 50, blur 0, background effect 'none' and no links |
| Platforms.PlatformNamesDistinct | src/lib/types.ts:45-86 | the catalogue has 40 platforms, and no two share a name (the names key the tiles) |
| Platforms.PlatformsNamed | src/lib/types.ts:45-86 | no platform has the empty name the links dialog starts with |
| Platforms.PlatformIconsShared | src/lib/types.ts:57-67 | glyphs are not unique: Roblox and Steam share one |
| Platforms.CustomUrlIsUnique | src/lib/types.ts:85 | 'Custom URL' is the last platform, and no other platform has that name |
| Db.EmptyIsValid | src/lib/db.ts:9-37 | the freshly created table satisfies the table invariant |
| Db.AllowlistIsProfile | src/lib/db.ts:85-91 | the update allowlist is exactly the fields other than uid, username and password, which are exactly DEFAULT_USER's fields |
| Db.CellFits | src/lib/db.ts:11-34 | every column holds a value of its field's storage class: TEXT for strings, INTEGER for numbers and toggles, JSON text for links |
| Db.ReadCell | src/lib/db.ts:57-63 | reading a column gives a value of the field's declared type |
| Db.EncodeRoundTrip | src/lib/db.ts:102-107 | a value bound by update reads back unchanged: booleans through 1/0 and Boolean(), links through JSON |
| Db.DecodeReadsCells | src/lib/db.ts:72-81 | each field of a read user is its column read as the field's type |
| Db.FoldingIsAsciiOnly | src/lib/db.ts:51 | LOWER() folds 'Bob' to 'bob' but leaves 'Ä' and 'ä' different |
| Db.FirstMatch | src/lib/db.ts:51-52 | the scan yields the lowest uid in range whose row matches the query, and nothing only when no row in range matches |
| Db.FindByUid | src/lib/db.ts:67-82 | a user exactly when a row has that uid, and then the user stored there |
| Db.Lookup | src/lib/db.ts:114-117 | a username query yields the first matching row in uid order, and nothing exactly when no row matches |
| Db.FindByUsername | src/lib/db.ts:50-65 | a user exactly when some stored username equals the query up to ASCII case, and then one such stored user |
| Db.Authenticate | src/lib/db.ts:114-129 | a user exactly when some row matches the username up to ASCII case and the password exactly, and then such a stored user |
| Db.DefaultsAgree | src/lib/db.ts:14-34 | a row inserted with only a username and password reads as that user with DEFAULT_USER's profile: the SQL defaults and DEFAULT_USER agree |
| Db.InsertKeepsValid | src/lib/db.ts:41-47 | inserting a fresh username above the counter keeps the table invariant |
| Db.Create | src/lib/db.ts:41-48 | fails exactly when rowids are exhausted or the exact username is stored; otherwise adds one row with a uid above every earlier one, keeps all others, and the new user has the default profile |
| Db.Filtered | src/lib/db.ts:93 | the update's fields are exactly the allowlisted field names among the keys; unknown keys and identity fields are dropped |
| Db.RewriteCell | src/lib/db.ts:96-110 | the UPDATE sets each named column to its bound value and leaves every other column as it was |
| Db.Update | src/lib/db.ts:84-112 | true exactly when some allowlisted key is present; on false, or when no row has the uid, nothing changes; otherwise only that row changes, and never its uid, username or password |
| Db.RowReadBack | src/lib/db.ts:102-110 | after the UPDATE, each field in the SET clause reads back as supplied and every other field as before |
| Db.UpdateReadBack | src/lib/db.ts:84-112 | after a successful update, each supplied allowlisted field reads back as supplied and every other field as before |
| Api.DecimalString | src/app/api/auth/signup/route.ts:38 | uid.toString() is a non-empty run of decimal digits with no leading zero except for 0 |
| Api.DecimalDenotes | src/app/api/auth/signup/route.ts:38 | the digits written for a uid denote that uid |
| Api.ParseInt | src/app/api/auth/profile/route.ts:17 | parseInt yields a number exactly when a digit follows an optional sign |
| Api.DecimalRoundTrip | src/app/api/auth/profile/route.ts:17 | parseInt of the decimal string of a uid gives back the uid |
| Api.SessionCookie | src/app/api/auth/signup/route.ts:37-43 | the session cookie is named userId, parses back to the uid, and is httpOnly, secure in production, sameSite 'lax' and kept for 2592000 seconds |
| Api.Signup | src/app/api/auth/signup/route.ts:5-55 | 400 exactly on a missing field; 409 exactly when a username equal up to ASCII case is stored; 500 only when rowids are exhausted; nothing changes unless 201; on 201 exactly one row is added, holding the defaults, and the response carries it without password and a cookie for its uid |
| Api.Login | src/app/api/auth/login/route.ts:5-44 | 400 exactly on a missing field; 401, with one fixed message whether the user is unknown or the password wrong, exactly when no row matches; otherwise 200 with a matching stored user without password and a cookie for its uid |
| Api.ProfilePut | src/app/api/auth/profile/route.ts:5-45 | 401 exactly without a session cookie; 500 exactly when no allowlisted key is present; 200 exactly when the cookie names a stored uid, with the updated stored user minus password; otherwise 404; only the session's row can change |
| Api.MissedIsAbsent | src/app/api/auth/signup/route.ts:16-26 | a username the case-insensitive lookup misses is not stored exactly either |
| Api.SignupAvoidsUniqueViolation | src/app/api/auth/signup/route.ts:16-34 | after a missed lookup, create can fail only by exhaustion, never on the UNIQUE column |
| Api.CreateAdmitsCaseVariant | src/lib/db.ts:12 | create alone accepts 'bob' when 'Bob' is stored: the UNIQUE column is case-sensitive |
| Api.OthersMissName | src/app/api/auth/signup/route.ts:16-26 | after a signup, no row but the new one equals its username up to ASCII case |
| Api.SignupKeepsFoldUnique | src/app/api/auth/signup/route.ts:16-26 | signup keeps stored usernames distinct up to ASCII case |
| Api.SignupTwiceConflicts | src/app/api/auth/signup/route.ts:16-23 | after a signup, a second signup with a name equal up to ASCII case gets 409 |
| Api.SignupThenLogin | src/app/api/auth/login/route.ts:16-36 | the credentials a signup stored log in with 200 as the new account and get the same body signup sent |
| Api.SignupThenWrongPassword | src/app/api/auth/login/route.ts:16-23 | after a signup, its username with a different password gets 401 |
| Api.SignupCookieOpensSession | src/app/api/auth/profile/route.ts:6-36 | the cookie a signup sets opens the new account's session: an update then answers 200 and reads back as supplied |
| Api.ProfilePutReadBack | src/app/api/auth/profile/route.ts:26-36 | a 200 shows the session's user with each supplied allowlisted field as supplied, every other field as stored before, and no password |
| Links.AddLink | src/app/account/links/page.tsx:22-26 | clicking a tile opens the dialog with the tile's name and glyph and keeps the URL typed so far |
| Links.SaveLink | src/app/account/links/page.tsx:28-45 | nothing changes without a URL; otherwise the old list followed by one link built from the dialog, and the dialog reset |
| Links.RemoveLink | src/app/account/links/page.tsx:47-50 | the links that remain are exactly those with another id; the list shrinks exactly when the id is present |
| Links.RemoveAppend | src/app/account/links/page.tsx:48 | removal distributes over concatenation, so it keeps the relative order of what remains |
| Links.RemoveAbsent | src/app/account/links/page.tsx:48 | removing an id no link has changes nothing |
| Links.RemoveIdempotent | src/app/account/links/page.tsx:48 | removing the same id twice is removing it once |
| Links.SaveThenRemove | src/app/account/links/page.tsx:28-50 | saving under a fresh id and removing that id gives back the original list |
| Links.RemoveKeepsDistinct | src/app/account/links/page.tsx:65-67 | removal keeps link ids, the list's keys, pairwise distinct |
| Links.SaveKeepsDistinct | src/app/account/links/page.tsx:31-38 | saving under an id no link has keeps ids pairwise distinct |
| Links.InitialFollowsCatalogue | src/app/account/links/page.tsx:15-18 | when the links already stored follow the catalogue, the page starts in the icon invariant, since its dialog names no platform |
| Links.StepFollowsCatalogue | src/app/account/links/page.tsx:22-50 | picking a tile, typing, opening, closing, saving and removing keep every link's glyph the glyph of its catalogue platform, Custom URL aside |
| Links.RunFollowsCatalogue | src/app/account/links/page.tsx:98-144 | when the links already stored follow the catalogue, then after any sequence of page events every link for a catalogue platform other than Custom URL bears that platform's glyph |
| Links.IconEditableOnlyForCustom | src/app/account/links/page.tsx:132-144 | typing an icon changes the dialog only after the Custom URL tile, the last of the catalogue |
| Auth.Received | src/lib/auth.tsx:69-72 | fetch's ok is a 2xx status, and the payload's user is the route's body user |
| Auth.Mount | src/lib/auth.tsx:23-39 | after the first fetch, loading is false whatever happened; the user is /me's when it answers ok and unchanged otherwise |
| Auth.Enter | src/lib/auth.tsx:41-79 | signup and login give true exactly on an ok response, whose user is then adopted; otherwise nothing changes |
| Auth.Logout | src/lib/auth.tsx:81-88 | once the request resolves the user is dropped; if it throws nothing changes |
| Auth.GetUser | src/lib/auth.tsx:125-137 | the payload's user on an ok response, and nothing on a failed or thrown request |
| Auth.GetUserReadsBody | src/lib/auth.tsx:125-137 | against a route's answer, a user exactly for a 2xx answer carrying one, and then the body's user |
| Auth.FailedMountSignsOut | src/lib/auth.tsx:23-39 | when the first /me fails or throws, the provider is signed out and no longer loading, and a later updateProfile does nothing |
| Auth.LogoutEndsUpdates | src/lib/auth.tsx:81-91 | after a logout that resolved, updateProfile leaves the state as it is, whatever its requests would answer |
| Auth.Merge | src/lib/auth.tsx:94 | the spread shows each supplied field, uid and username included, as supplied and every other field as before |
| Auth.Optimistic | src/lib/auth.tsx:91-94 | signed out, nothing changes; signed in, the user becomes the merge of the user and the update, and loading is kept |
| Auth.UpdateProfile | src/lib/auth.tsx:90-123 | nothing without a user; otherwise the PUT's user if ok; after a PUT that is not ok, /me's user if ok and the merged user if /me is not ok, whatever the catch block would answer; if that /me throws, the catch block's /me user if ok and otherwise the merged user; after a PUT that throws, the catch block's /me user if ok and otherwise the merged user |
| Auth.FailedUpdateKeepsMerge | src/lib/auth.tsx:103-122 | when the PUT, the /me fetch and the catch block's /me all fail, the supplied value stays on screen although the server did not confirm it |
| Auth.CatchRefetchesMe | src/lib/auth.tsx:106-121 | a PUT that is not ok followed by a /me that throws is rescued by the catch block's second /me |
| Auth.MergeFieldAgrees | src/lib/auth.tsx:93-105 | field by field, the stored row after an update without identity keys reads as the client's merge |
| Auth.MergeMatchesRewrite | src/lib/auth.tsx:93-105 | the stored row after an update without identity keys, sent out, equals the client's merge of what was sent out before |
| Auth.OptimisticAgreesWithServer | src/lib/auth.tsx:90-123 | for a client in sync with the table, an update with an allowlisted key and no identity key gets 200 with exactly the merged user, so reconciliation leaves the screen unchanged |
| Auth.ClientSignup | src/lib/auth.tsx:41-59 | against the signup route the client reports true exactly on 201, and then shows the new account |
| Auth.ClientLogin | src/lib/auth.tsx:61-79 | against the login route the client reports true exactly when a row matches, and then shows that user |

## Left out

- The database connection, the file path, prepared statements and better-sqlite3
  are left out; the table is an abstract map.
- The `createdAt` column is left out. Its value is a wall-clock timestamp.
  `Decode` and `PublicUser` omit it, although the lookups spread it into the
  user object and every response body carries it. No update writes it and no
  decision depends on it.
- JSON is not modelled character by character. The `links` column holds the list
  that its JSON text denotes, and JSON.stringify/JSON.parse are taken to
  round-trip. An empty `links` text, which `|| '[]'` would read as an empty
  list, never arises, because the column default is '[]' and update writes
  JSON.
- Request values of the wrong type are left out. All of these are excluded by
  `WellTyped` and by `Credentials` holding optional strings:
  - `null`;
  - a string for a toggle or a number for a text field, which SQLite's column
    affinity and `Boolean()` would coerce;
  - arrays bound to non-links columns, which the driver rejects;
  - non-string credentials.
- JavaScript numbers are integers here, and their precision above 2^53 is
  ignored. Fractional opacity and blur values are left out.
- Ranges of opacity and blur are not checked; the source does not check them.
- Db.Lower: folds ASCII letters only, as SQLite's built-in LOWER() does without
  the ICU extension; Unicode case folding is not part of the model.
- Api.ParseInt: leading whitespace and the `0x` hexadecimal prefix that
  `parseInt` without a radix accepts are not modelled. Only decimal strings
  with an optional sign are.
- Cookie transport and request parsing are left out:
  - the Next.js request and response objects and `await request.json()`;
  - the cookie's wire format.
  
  The session is the cookie's value, if any.
- The catch-all 500 "Internal server error" is modelled only where the model
  can fail: an exhausted rowid counter in signup. Storage and I/O failures are
  left out.
- `fetch`, async scheduling and React state batching are left out. Each
  request's outcome is an input of the client transition that awaits it.
  Overlapping `updateProfile` calls, which can race, are not modelled. When
  the catch block's /me throws as well, the error escapes `updateProfile`;
  the model records only the state it leaves, which keeps the merged user.
- The /me, logout and public-profile routes are not part of this model. Their
  answers are inputs to `Auth.Mount`, `Auth.UpdateProfile`, `Auth.Logout` and
  `Auth.GetUser`.
- Auth.Merge drops unknown keys and a `password` key. The client object would
  gain such keys, but the outgoing-user type has no place for them.
- `Math.random` link ids are left out; the id is a parameter of
  `Links.SaveLink`, and its freshness is a precondition where distinctness is
  claimed.
- The React pages other than the links editor are left out; they are
  presentation and form wiring around the operations modelled here.
- The icon invariant of the links page holds only for link lists that already
  follow the catalogue. The profile route stores any well-typed link list as
  given, so a list saved through another client need not follow it.
- The DialogTrigger-less `onOpenChange(true)` path is modelled as a plain flag
  change; the rendering of dialogs and tiles is not.
