# Files manager backend: session, registration and file-metadata core in Dafny

This project models the controllers and authentication gates of an
Express file-manager backend. Clients register, open sessions, and
upload files and folders. They can look files up and publish or
unpublish them.

The external stores are Dafny values:

- **Token cache** (Redis): `map<string, string>` from `auth_<token>` keys to user-id strings. A second map records each key's time-to-live.
- **User collection**: `seq<User>` in insertion order. `findOne({ email })` is the first user with that exact email.
- **File collection**: `map<string, FileDoc>` keyed by document id.
- **Content store**: `map<string, string>` from local path to the decoded content written there.

The foreign libraries become plain definitions or parameters:

- `sha1` is the injective constructor `Users.Sha1`. Its type differs from a plaintext string.
- The n-th uuid is the decimal spelling of n, `Uuid(n)`. The n-th ObjectId, `ObjectIdOf(n)`, is that spelling wrapped as `ObjectId(n)`, so a short decimal numeral a client sends (`"123"`, `"0"`) is never a document id. Each store counts the names it has handed out, and `Common.DigitsInjective` proves that names never repeat.
- Base64 decoding is a function parameter `decode`.
- A failing blob write is a boolean parameter `writeFails`.

The modules follow the source files:

| module | file | models |
|---|---|---|
| `Common` | common.dfy | `Option`, `Result`, HTTP `Reply`, JavaScript truthiness of strings, fresh names |
| `Strings` | strings.dfy | `split`, split at the first separator, `trim` |
| `Gates` | gates.dfy | routes/requireAuth.js and routes/middlewares.js, as read-only functions of the token cache |
| `Users` | users.dfy | controllers/UsersController.js; class `UserCollection` |
| `Auth` | auth.dfy | controllers/AuthController.js; class `TokenCache` |
| `Files` | files.dfy | controllers/FilesController.js; class `FileStore` |

State that the source updates in place is a class. Its methods carry `modifies this` and state the whole new state in terms of the old one. A `Valid()` invariant guarantees three things:

- names not yet handed out are unused, so every new token, id and blob path is fresh, and every stored document id was handed out by the ObjectId generator;
- stored emails are unique;
- every stored file has a root or existing-folder parent, and has content exactly when it is not a folder.

The ordered validators, the gates, the show and list handlers and the credential check read state without writing it, so they are functions.

## Model

| member | source | states |
|---|---|---|
| `Common.UuidFresh` | controllers/AuthController.js:20 | distinct draws of the uuid oracle give distinct tokens |
| `Common.ObjectIdFresh` | controllers/UsersController.js:18 | distinct inserts get distinct document ids |
| `Common.NumeralIsNoObjectId` | controllers/FilesController.js:35 | a string of decimal digits, such as `"123"`, is never the spelling of a document id |
| `Strings.Split` | controllers/AuthController.js:8 | JavaScript `split`: at least one piece, no piece holds the separator, and joining the pieces with the separator gives the input back |
| `Strings.SplitJoin` | controllers/AuthController.js:14 | splitting the join of separator-free pieces returns exactly those pieces (the other half of the round trip) |
| `Strings.SplitOnce` | controllers/AuthController.js:14 | the corrected credential split: none exactly when there is no colon; otherwise a colon-free head and a tail that rebuild the input |
| `Strings.SplitOnceJoin` | controllers/AuthController.js:14 | `email:password` splits back into that email and that password whenever the email has no colon, whatever the password holds |
| `Strings.SplitOnceAgreesWithSplit` | controllers/AuthController.js:14 | the head is `split`'s first piece and the tail is the remaining pieces joined; the two splits agree on the password exactly when it holds no colon |
| `Strings.TrimStart` | controllers/UsersController.js:19 | the result is a suffix of the input; only white space was removed; it does not start with white space |
| `Strings.TrimEnd` | controllers/UsersController.js:19 | the result is a prefix of the input; only white space was removed; it does not end with white space |
| `Strings.SplitCons` | controllers/AuthController.js:14 | splitting a separator-free head, a separator and any tail gives the head followed by the pieces of the tail |
| `Strings.Trim` | controllers/UsersController.js:19 | the result is a slice of the input with only white space before and after it removed; it starts and ends with non-space; an already-trimmed string is unchanged |
| `Strings.TrimIdempotent` | controllers/UsersController.js:19 | trimming twice equals trimming once |
| `Gates.AuthKeyInjective` | controllers/AuthController.js:21 | distinct tokens live under distinct `auth_` keys |
| `Gates.Resolve` | routes/requireAuth.js:4-7 | a token resolves exactly when it is truthy and its `auth_` key maps to a truthy value, and it resolves to that value |
| `Gates.RequireAuthJs` | routes/requireAuth.js:3-10 | 401 without calling `next` exactly when the token is absent, empty or unmapped; otherwise `req.userId` is exactly the cached value |
| `Gates.RequireAuth` | routes/middlewares.js:4-12 | 401 exactly when the token is absent, empty or unmapped; otherwise both the token and the mapped user id are recorded |
| `Gates.OptionalAuth` | routes/middlewares.js:14-24 | always calls `next`; records token and user id exactly when the token resolves, and nothing otherwise |
| `Gates.OptionalAgreesWithRequired` | routes/middlewares.js:4-24 | `optionalAuth` records nothing exactly when `requireAuth` rejects, and otherwise records what `requireAuth` records |
| `Gates.RequireAuthVariantsAgree` | routes/requireAuth.js:3-10 | the two `requireAuth` gates accept the same tokens and give the same user id |
| `Gates.ResolveLocal` | routes/middlewares.js:7 | setting or deleting any other cache key leaves a token's resolution unchanged |
| `Users.FindByEmail` | controllers/UsersController.js:14 | the position of the first stored user with exactly this email, or none when no user has it |
| `Users.DuplicateAsWritten` | controllers/UsersController.js:14 | the source's duplicate test: some stored email equals the untrimmed submitted email |
| `Users.Duplicate` | controllers/UsersController.js:14-19 | the corrected duplicate test: some stored email equals the trimmed email that would be stored |
| `Users.RegistrationErrorAsWritten` | controllers/UsersController.js:7-16 | the validation as written: `Missing email` exactly when the email is falsy; then `Missing password` exactly when the password is falsy; then `User already exists` exactly when the untrimmed email is stored; no error otherwise; it agrees with the corrected validation on emails that need no trimming |
| `Users.RegistrationError` | controllers/UsersController.js:7-19 | the corrected validation (see Findings): the same ordered errors, with `User already exists` exactly when the trimmed email, the one that would be stored, is taken |
| `Users.TrimGapAdmitsDuplicate` | controllers/UsersController.js:14-19 | with the check as written, `" a@b.com"` passes although `a@b.com` is stored, and the collection ends up with two users holding the same email; the corrected validation answers `User already exists` |
| `Users.DuplicateKeepsEmailsUnique` | controllers/UsersController.js:14-21 | with the corrected check, inserting keeps stored emails unique |
| `Users.UserCollection.Register` | controllers/UsersController.js:5-24 | on an error: 400 with that error, and the collection is unchanged; otherwise exactly one user is appended, holding a fresh id, the trimmed email and `sha1(password)`, and the 201 reply carries the id and the email as submitted |
| `Auth.BasicCredentials` | controllers/AuthController.js:8-12 | credentials exist exactly when the header is present, has a second space-separated piece, and its first piece is exactly `Basic`; they are that second piece |
| `Auth.CheckPassword` | controllers/AuthController.js:15-18 | granted exactly when a user is stored under the email and the first such user's hash is `sha1(password)`; the grant carries that user's id |
| `Auth.Authenticate` | controllers/AuthController.js:8-18 | corrected connect decision: it never throws; a missing or non-`Basic` header, or one without credentials, is rejected; otherwise the decoded credentials split at the first colon decide as the password check does: rejected without a colon, else granted exactly when the first user under the email holds `sha1(password)`, and granted that user's id |
| `Auth.AuthenticateAsWritten` | controllers/AuthController.js:8-18 | connect decision as written: a missing header throws, and so does a bare `Basic` with no credentials piece; a non-`Basic` scheme is rejected; otherwise, with the decoded credentials split on every colon, it throws exactly when the first piece is a stored email and there is no second piece, and grants exactly when the first user under the first piece holds the digest of the second piece, granting that user's id |
| `Auth.AuthenticateGrantsRegistered` | controllers/AuthController.js:14-18 | a header `Basic c`, where `c` decodes to `email:password` and the first user under that email holds `sha1(password)`, is granted that user's id |
| `Auth.RegisteredUserCanConnect` | controllers/AuthController.js:14-21 | after a successful registration with an email that has no surrounding white space, connecting with the registered email and password grants the new user's id |
| `Auth.AuthenticateOnlyWithPassword` | controllers/AuthController.js:15-18 | every grant comes from credentials `email:password` whose first stored user under `email` holds `sha1(password)`, and carries exactly that user's id |
| `Auth.ColonPasswordLocksOut` | controllers/AuthController.js:14-16 | with the code as written, a user whose password holds a colon is rejected with the very credentials registered; the corrected decision grants them |
| `Auth.TrailingPiecesIgnored` | controllers/AuthController.js:14-16 | with the code as written, `email:p:anything` is granted to the user whose password is `p`; the corrected decision rejects it |
| `Auth.AsWrittenAgreesOnPlainCredentials` | controllers/AuthController.js:8-16 | the written and corrected decisions coincide whenever a `Basic` header carries decoded credentials with exactly one colon |
| `Auth.TokenCache.Connect` | controllers/AuthController.js:7-24 | when not granted: 401 and the cache is unchanged; when granted: 200 with a token whose `auth_` key was absent, the cache gains exactly that key, mapped to the user's id with a 86400-second lifetime, and the token now resolves to that id (stored ids are never empty) |
| `Auth.TokenCache.Disconnect` | controllers/AuthController.js:26-39 | an absent, empty or unmapped token gives 401 and the cache is unchanged; otherwise exactly that token's key is deleted, the reply is 204, and the token no longer resolves |
| `Auth.ConnectTwice` | controllers/AuthController.js:20-21 | two successful connects return different tokens |
| `Auth.DisconnectTwice` | controllers/AuthController.js:26-38 | disconnecting the same token a second time is answered 401 |
| `Files.TypeName` | controllers/FilesController.js:6 | each kind is spelled by one of the accepted `type` strings |
| `Files.ParseType` | controllers/FilesController.js:97 | a kind exactly when the submitted `type` is one of `folder`, `file`, `image`, and that kind spells the submitted string |
| `Files.GetFileProperties` | controllers/FilesController.js:92-107 | first failing check wins, in the order `Missing name`, `Missing type`, `Missing data` (non-folder only), `Parent not found`, `Parent is not a folder`, each as an if-and-only-if; on success the properties are the submitted ones, with `parentId` defaulting to 0 and `isPublic` to false |
| `Files.FolderNeedsNoData` | controllers/FilesController.js:98 | a named folder at the root is accepted without data |
| `Files.FindUserFile` | controllers/FilesController.js:35 | found exactly when the id exists and the caller owns it |
| `Files.NumeralNamesNoFile` | controllers/FilesController.js:35-101 | in a store whose ids were all handed out by the ObjectId generator, an id written as a decimal numeral (`"123"`, `"0"`) is found for no caller and is not accepted as a parent |
| `Files.Show` | controllers/FilesController.js:29-41 | 401 exactly when the token does not resolve; 404 exactly when the caller does not own an existing file of that id; 200 exactly when the token resolves and the caller owns the file, answered with that file without its local path |
| `Files.QueryOrZero` | controllers/FilesController.js:49 | an absent query parameter is passed on as the number 0, a present one as its text |
| `Files.Index` | controllers/FilesController.js:44-52 | 401 exactly when the token does not resolve; 200 whenever it does, with the listing delegate's result for the caller, the parent and the page (each 0 when absent), or an empty list |
| `Files.WithVisibilityTouchesOnlyFlag` | controllers/FilesController.js:64 | the update changes only that file's `isPublic` and no other file or field |
| `Files.WithVisibilityIdempotent` | controllers/FilesController.js:63-66 | setting the flag to its current value changes nothing; setting it twice equals setting it once |
| `Files.BlobPathFresh` | controllers/FilesController.js:112 | distinct blobs get distinct local paths under the storage folder |
| `Files.FileStore.SaveFile` | controllers/FilesController.js:109-118 | on a write failure the error is returned and nothing changes; otherwise the decoded data is stored under a fresh path, which is returned |
| `Files.FileStore.Upload` | controllers/FilesController.js:11-26 | a validation or blob-write failure gives 400 and leaves the collection, the content store and both name counters unchanged; on success, a folder is inserted without a local path, a file or image first gets a freshly written blob and is then inserted with its path, the id is fresh, and the 201 reply is the stored document with the caller's id and without data or local path; success uses one document id, and one blob name unless the upload is a folder |
| `Files.FileStore.PutVisibility` | controllers/FilesController.js:55-90 | 401 or 404 (file missing or owned by someone else) changes nothing; otherwise the flag is set to the requested value, no other file or field changes, and the store is written only when the flag actually changed |
| `Files.PublishTwice` | controllers/FilesController.js:63-66 | publishing twice gives the same reply, and at most one write happens |

## Findings

| source | as written | input that shows it | evidently intended | confidence | as-written member | corrected member |
|---|---|---|---|---|---|---|
| controllers/AuthController.js:8 | `req.headers.authorization.split(' ')` dereferences the header without a guard. A `Basic` value with nothing after it passes `undefined` to `Buffer.from`. Either way the handler throws and no reply is sent | `GET /connect` with no Authorization header | 401 Unauthorized | high; not executed | `Auth.AuthenticateAsWritten` | `Auth.Authenticate` |
| controllers/AuthController.js:14 | the decoded credentials are split on every colon, and only the second piece is hashed | register password `p:q`, then connect with `Basic` base64(`email:p:q`): only `p` is hashed, so the answer is always 401 (and, conversely, `email:p:anything` is granted to a user whose password is `p`, as `Auth.TrailingPiecesIgnored` shows) | split at the first colon, so the password may hold colons (section 2 of RFC 7617) | high; not executed | `Auth.ColonPasswordLocksOut` | `Auth.AuthenticateGrantsRegistered` |
| controllers/UsersController.js:14-19 | the duplicate check looks up the untrimmed email, but the stored email is trimmed | register `a@b.com`, then register ` a@b.com` | reject the second as a duplicate, so stored emails stay unique | high; not executed | `Users.TrimGapAdmitsDuplicate` | `Users.Duplicate` |

The corrected definitions are the ones the rest of the model uses:

- `TokenCache.Connect` decides with `Auth.Authenticate`.
- `UserCollection.Register` checks with `Users.Duplicate`.

## Left out

- `Auth.TokenCache.Connect`: uses the corrected decision (see Findings). It never throws and splits credentials at the first colon, where the source throws or truncates the password.
- `Users.UserCollection.Register`: checks the trimmed email for duplicates (see Findings), where the source checks the untrimmed input. The reply still carries the email as submitted. The check-then-insert race between concurrent registrations is not modelled, since the model is sequential.
- `Users.RegistrationError`: this is the corrected validation, whose duplicate test looks up the trimmed email; the validation as written is `Users.RegistrationErrorAsWritten`, and the two differ exactly on an email whose trimmed form is stored while its submitted form is not.
- `Auth.TokenCache.Connect`: requires that every stored user id is non-empty, as the string of an ObjectId always is; `Users.UserCollection.Valid` implies it.
- Store calls are assumed to succeed. A failing `findOne` or `insertOne` (controllers/UsersController.js:14,18), the credential check's `findOne` (controllers/AuthController.js:15), redis `get` or `del` (controllers/AuthController.js:32,37), `findUserFileById` or `updateFileById` rejects the async handler, and no reply is sent; the model has no such path.
- `Auth.TokenCache.Connect`: controllers/AuthController.js:21 does not await `redisClient.set`, so the 200 with the token may go out before the write completes, and a failed write leaves the client with a token that never resolves. The model performs the write and the reply as one step.
- `Auth.TokenCache.Disconnect`: the reply is modelled as a sent 204. The source only sets the status with `res.status(204)` and never ends the response, so at the transport level the request is left hanging.
- `Files.FileStore.Upload`: takes the user id that routes/requireAuth.js records; routes/index.js:19 mounts that gate before the handler. A failing `insertOne` after the blob write is not modelled. The blob it would orphan is harmless.
- `Files.Index`: the query behind `findUserFiles` (its filter, page size and order) is not visible in the source, so it is the parameter `findUserFiles`. A delegate result without a `files` field is `None` and gives an empty list.
- Token expiry: redis `SET ... EX` expires keys by wall clock (utils/redis.js:47-48). The model only records the 86400-second lifetime.
- utils/redis.js and utils/db.js: connection and client plumbing, replaced by the maps above. `findUserFileById`, `findFileById` and `updateFileById` are not defined in the source. They are modelled as an owner-scoped lookup, a plain id lookup, and a one-field map update.
- The parent lookup of the upload validator (`findFileById`) is not owner-scoped. The model keeps this: a user may upload into another user's folder.
- JSON values of unexpected types are not modelled: a non-string name or email (`String(email)`), a `null` parentId, a non-boolean `isPublic`. Each field is absent or of its expected type.
- `new ObjectId(userId)` in routes/middlewares.js is modelled as the identity on id strings. Its throw on a malformed string is not modelled.
- `trim` removes the ECMAScript white-space and line-terminator characters.
- `Files.FOLDER_LOCATION` is the default `/tmp/files_manager`; the FOLDER_PATH environment variable that would override it is taken as unset.
- Uuids are drawn from two separate counters, one in the token cache and one in the file store, so the first token and the first blob name share the spelling `Uuid(0)`. The two never meet: tokens are only looked up under `auth_` keys and blob names only as paths under the storage folder. `Uuid` and `ObjectIdOf` are two spellings of a counter because they stand for two different generators; the real ObjectId is a 24-character hexadecimal string, of which the model keeps only that it never repeats and never equals a decimal numeral whose length is not 24, such as `"123"` or `"0"`.
- `Files.NumeralNamesNoFile`: a real ObjectId may happen to use only the digits 0-9 (for example `650000000000000000000001`), and then the 24-digit numeral that spells it finds its document. The model's `ObjectId(n)` spelling excludes this, so in the source the lemma holds only of numerals whose length is not 24.
- `Common.NumeralIsNoObjectId`: for the same reason, in the source it holds only of numerals whose length is not 24.
- `sha1`, uuid, ObjectId, base64 and `fs`: see the abstractions above. Bytes are modelled as strings.
- The duplicate-email message follows the code (`User already exists`). The integration test expects `Already exist`.
- worker.js (thumbnail generation) is not part of this model. It is an asynchronous `forEach` over a foreign image library, and as written it refers to an undefined `size` and a missing `_saveThumbnail`.
- server.js, routes/index.js, `UsersController.getMe`, `AppController` and the `/files/:id/data` endpoint (which has no handler in the source) are not part of this model.
