# files_manager request rules in Dafny

A model of the request handlers of `files_manager`. This is a multi-user file store on Express, MongoDB and Redis, with a Bull worker. The model includes:

- `POST /files` (upload), `GET /files/:id` (show), `GET /files` (paginated listing), `PUT /files/:id/publish` and `/unpublish`, and `GET /files/:id/data` (content download);
- `GET /connect` (HTTP Basic sign-in issuing a session token) and `GET /disconnect`;
- `POST /users` (registration);
- the `fileQueue` thumbnail job and the `userQueue` welcome job.

The external stores are in-memory state:

- **The `files` collection (`Stores.FilesCollection`).** An insertion-ordered `seq<FileDoc>` with an id counter standing for `insertedId`.
- **The `users` collection (`Stores.UsersCollection`).** A `seq<UserDoc>` with the same kind of counter.
- **The Redis session cache (`Sessions.SessionCache`).** A map from `auth_<token>` to the user's id text and the TTL it was stored with.
- **The local disk (`Stores.Disk`).** A map from path to bytes.

An ObjectId is a natural number below 16^24:

- `ObjectId(text)` is `ObjectIds.ParseOid`. It accepts exactly 24 hex digits, and `None` is the exception it throws.
- `id.toString()` is `ObjectIds.OidText`, which gives 24 lower-case hex digits.
- `ObjectId(id.toString())` is proved to give back `id`. The other direction holds only for lower-case text: `ObjectId` also accepts upper-case hex digits, which `toString()` never prints.

The root parent is its own constructor (`RootMark`), stored and matched as the text `'0'`. On upload it is written as the number `0` (`ParentArg.Zero`).

How the model is built:

- **The handlers that decide without writing are functions.** These are `GetShow`, `GetIndex`, `GetFile`, `ReadAuthorization`/`DecideLogin` and `ProcessUser`. Each returns a `Response`: a status with a JSON or binary body, or `Unanswered` for a handler that throws outside any `try`.
- **The handlers that write are methods on the store classes.** These are `PostUpload`, `PutPublish`, `PutUnpublish`, `GetConnect`, `GetDisconnect`, `PostNew` and `ProcessFileJob`.
- **Each such method has a specification function.** The method's postcondition equates its reply and the new state with that function of the old state (`Upload`, `SetVisibility`, `Connect`, `Disconnect`, `Register`, `ProcessFile`). The properties are lemmas about those functions.
- **`ProcessFileJob` writes one thumbnail per loop step,** like the source's loop over `sizes`.

JavaScript behaviour that matters here is written out in `JsText`:

- truthiness of optional strings;
- `split` on one character (with `join` and both round trips);
- `parseInt(s, 10)`;
- the decimal text of an integer in a template literal.

A missing `X-Token` header reads as the key `auth_undefined`, because of the template literal `auth_${token}`. No session ever resolves under that key unless one was stored there.

The system is meant to behave in a few ways the code does not. The model follows the code:

- An image upload is meant to queue a thumbnail job. `postUpload` never queues one.
- Thumbnails are meant for images only. The thumbnail job does not check the file's type.
- Downloads are meant to take a `size` parameter that selects a thumbnail. `getFile` ignores it.
- Section 2 of RFC 7617 lets a Basic password contain colons. The code cuts the password at its first colon. `AuthController.ThirdFieldDropped` and `AuthController.ColonPasswordIsCut` state the difference.
- Each malformed-ObjectId path is modelled as the code handles it:
  - uncaught, so the request is never answered, at controllers/FilesController.js:37 and :44;
  - 404 in `getShow`;
  - 500 in `getIndex`, `putPublish`, `putUnpublish` and `getFile`;
  - a rejected job in the worker.

## Model

| member | source | states |
|---|---|---|
| JsText.Split | controllers/AuthController.js:15 | `split` on one character yields at least one piece, and no piece contains the separator |
| JsText.JoinSplit | controllers/AuthController.js:20 | joining the pieces of a split with the separator gives back the text: nothing is lost in splitting |
| JsText.SplitJoin | controllers/AuthController.js:20 | splitting a join of separator-free pieces gives back exactly those pieces |
| JsText.ParseInt | controllers/FilesController.js:134 | `parseInt(s, 10)` yields a number exactly when, after the leading white space, the text starts with a digit or with a sign and a digit; a negative number needs a `-` |
| JsText.ParseIntDecimal | controllers/FilesController.js:134 | `parseInt` reads back the decimal text of every non-negative integer |
| ObjectIds.ParseOid | controllers/FilesController.js:37 | `ObjectId(text)` succeeds exactly on 24 hex digits, with a value below 16^24 |
| ObjectIds.OidText | controllers/AuthController.js:34 | `toString()` of an id is 24 hex digits, so it is valid ObjectId text |
| ObjectIds.OidTextRoundTrip | controllers/FilesController.js:44 | `ObjectId(id.toString())` is `id` for every id below 16^24 |
| ObjectIds.OidTextInjective | controllers/FilesController.js:246 | two ids with the same text are the same id, so the owner test on texts is a test on ids |
| Stores.FindFile | controllers/FilesController.js:104-105 | `findOne` gives the first document matching the filter, and nothing exactly when no document matches |
| Stores.FindUser | controllers/UsersController.js:19 | `findOne` on users gives the first match, and nothing exactly when no user matches |
| Stores.FirstWithOwnId | controllers/FilesController.js:238 | with distinct ids, looking up a document's own id finds that document |
| Stores.UpdateFirst | controllers/FilesController.js:181 | `updateOne` on `_id` sets `isPublic` to the value on the first document with that id and changes no other document or field; without such a document nothing changes |
| Stores.FilesCollection.InsertOne | controllers/FilesController.js:57 | appends the document under the next id and keeps ids fresh and increasing |
| Stores.FilesCollection.SetPublic | controllers/FilesController.js:214 | the collection becomes `UpdateFirst` of the old one, with the counter unchanged |
| Stores.UsersCollection.InsertOne | controllers/UsersController.js:28 | appends one user under the next id and keeps ids fresh |
| Sessions.SessionUser | controllers/FilesController.js:21-22 | a token resolves exactly when `auth_<token>` is stored with a non-empty value, and resolves to that value |
| Sessions.SessionKeyInjective | controllers/FilesController.js:21 | two present tokens share a key exactly when they are equal |
| Sessions.MissingTokenIsUndefined | controllers/FilesController.js:21 | a request without a token reads the key of the token `undefined`, and of no other token |
| Sessions.LookupAfterSet | utils/redis.js:35-42 | after `set` of a non-empty value, `get` of that key yields it, and every other key reads as before |
| Sessions.LookupAfterDel | utils/redis.js:35-47 | after `del`, `get` of that key misses, and every other key reads as before |
| Stores.Disk.WriteFile | controllers/FilesController.js:77 | the disk is the old disk with that one path set to the content |
| Sessions.SessionCache.Set | utils/redis.js:40-42 | `set` with a duration stores that value and TTL under the key and changes nothing else |
| Sessions.SessionCache.Del | utils/redis.js:45-47 | `del` removes exactly that key |
| FilesController.Requester | controllers/FilesController.js:98-105 | the requester is the ObjectId of the text the token resolves to |
| FilesController.ParseFileType | controllers/FilesController.js:28-30 | the type is accepted exactly when it is `folder`, `file` or `image` |
| FilesController.FolderPath | controllers/FilesController.js:69 | the folder is `FOLDER_PATH` when set and non-empty, else `/tmp/files_manager`, never empty |
| FilesController.CheckParent | controllers/FilesController.js:35-42 | root passes; a malformed id throws uncaught; an unknown id is `Parent not found` exactly when no document has it; a non-folder is `Parent is not a folder`; a passing parent is an existing folder |
| FilesController.PlanUpload | controllers/FilesController.js:21-44 | the checks run in the source's order: 401, `Missing name`, `Missing type`, `Missing data` (non-folders only), the parent check, then `new ObjectId(userId)`, which throws uncaught; a request passing them all is accepted with that owner, kind and parent |
| FilesController.Upload | controllers/FilesController.js:14-90 | a refused upload changes neither store. A success appends exactly one document and keeps every earlier one. The new document has the next id, the requester as owner, root for parent 0 and otherwise the parent the parent check admits (the folder that the given text names), and a local path exactly when it is not a folder. A non-folder's decoded data is written at `<folder>/<uuid>`. The reply is 201 with the request's fields |
| FilesController.ContentPath | controllers/FilesController.js:69-71 | a file's content goes to the upload folder, a `/`, then the uuid |
| FilesController.PostUpload | controllers/FilesController.js:14-90 | the handler's reply, collection and disk are those of `Upload` |
| FilesController.ParentCheckOfExisting | controllers/FilesController.js:36-42 | an existing folder of any owner passes the parent check, and an existing file or image is refused as not a folder |
| FilesController.UploadStoresGivenParent | controllers/FilesController.js:36-52 | a created document with a given parent is stored under the id that text parses to, and that id names an existing folder |
| FilesController.ValidUploadCreated | controllers/FilesController.js:21-90 | an upload with a session, the fields its type needs, and root or an existing folder as parent is answered 201 and appended under that parent, owned by the requester |
| FilesController.GetShow | controllers/FilesController.js:93-122 | 401 exactly when there is no session. 200 exactly when the requester owns a document with that id, and then it is that document. Otherwise 404: malformed, absent or another user's id |
| FilesController.ShowHidesOthersDocuments | controllers/FilesController.js:104-108 | another user's document, public or not, gets the reply its absence would: 404 |
| FilesController.ListParent | controllers/FilesController.js:133 | a missing or `'0'` parent means root; any other parent must be ObjectId text |
| FilesController.PageIndex | controllers/FilesController.js:134 | a missing or non-numeric page is 0, otherwise it is the number `parseInt` reads |
| FilesController.PageIndexOfDecimal | controllers/FilesController.js:134 | a page given as the decimal text of `n` is page `n` |
| FilesController.Matching | controllers/FilesController.js:141 | the match stage keeps exactly the owner's documents under the parent |
| FilesController.MatchingAppend | controllers/FilesController.js:139-145 | matching keeps store order: matching a concatenation is the concatenation of the matches |
| FilesController.Window | controllers/FilesController.js:142-143 | `$skip`/`$limit` give the elements from `skip` on, at most `limit` of them, and a full window unless the sequence ends |
| FilesController.GetIndex | controllers/FilesController.js:124-161 | 401 exactly when there is no session. 200 exactly when the requester, the parent and a non-negative page are valid, with the page as body. Otherwise 500 |
| FilesController.PageContents | controllers/FilesController.js:135-145 | a page holds at most 20 documents, all the requester's under the parent. They are matches `page*20` to `page*20+19` in store order, and the page is full unless the matches run out |
| FilesController.Page | controllers/FilesController.js:139-145 | the aggregate's result has at most 20 documents, each the owner's and under the parent |
| FilesController.UploadListedLast | controllers/FilesController.js:141 | a new document appears at the end of its owner's listing under its parent |
| FilesController.ListingIgnoresOthers | controllers/FilesController.js:141 | documents of other owners or other parents never change a listing |
| FilesController.SetVisibility | controllers/FilesController.js:163-227 | 401 exactly when there is no session. 500 exactly when, with a session, the id or the session's user id is not ObjectId text. 200 exactly when the requester owns a document with that id, with `isPublic` equal to the value set and no local path in the reply. Otherwise 404. A success sets the flag on the first document with that id. Anything else changes nothing |
| FilesController.VisibilityChangesOneField | controllers/FilesController.js:174-181 | with distinct ids, a successful publish or unpublish changes exactly the requester's document, and only its `isPublic` |
| FilesController.UpdateKeepsIds | controllers/FilesController.js:181 | the update keeps every id, so ids stay distinct |
| FilesController.SetVisibilityIdempotent | controllers/FilesController.js:174-190 | doing a publish or unpublish twice gives the reply and the collection of doing it once |
| FilesController.UpdateVisibility | controllers/FilesController.js:163-194 | the handler's reply and collection are those of `SetVisibility`, and the id counter is unchanged |
| FilesController.PutPublish | controllers/FilesController.js:163-194 | `SetVisibility` with `true` |
| FilesController.PutUnpublish | controllers/FilesController.js:196-227 | `SetVisibility` with `false` |
| FilesController.MimeType | controllers/FilesController.js:261 | the looked-up type, or `application/octet-stream` when the lookup fails |
| FilesController.VisibleMeansPublicOrOwned | controllers/FilesController.js:246 | a document passes the read test only when it is public or its owner is the requester, and a public one always passes |
| FilesController.GetFile | controllers/FilesController.js:229-273 | a malformed id is 500 and an unknown id 404. A 200 carries the bytes at the local path of a document with that id that the requester may see, that is not a folder and whose file exists, under its MIME type |
| FilesController.GetFileHidesPrivate | controllers/FilesController.js:246-248 | a private document the requester does not own, with or without a session, gets 404, the same reply as with the document removed |
| FilesController.GetFileOfVisible | controllers/FilesController.js:250-268 | for a visible document: a folder is 400, a missing path or file is 404, and otherwise the content is returned |
| FilesController.PublicSameForEveryone | controllers/FilesController.js:246 | a public document gets the same reply whoever asks |
| FilesController.PublishedReadableByAll | controllers/FilesController.js:181 | after a successful publish, the content reply no longer depends on the requester |
| AuthController.ReadAuthorization | controllers/AuthController.js:9-23 | refused without a header or under another scheme; the request goes unanswered when there is no credential word; otherwise refused when the first colon-separated field of the decoded credential is empty or the second is missing or empty, and else the credentials are exactly those two fields, however many fields follow. Credentials read are non-empty and colon-free |
| AuthController.FieldsPrefix | controllers/AuthController.js:20 | the first two fields of a split text are its prefix, up to the second colon |
| AuthController.ReadsWhatWasSent | controllers/AuthController.js:15-20 | `Basic` with a credential decoding to `email:password` (no colons inside) reads as exactly that email and password |
| AuthController.ThirdFieldDropped | controllers/AuthController.js:20 | a credential `email:password:rest` reads as `email` and `password`; the rest is dropped |
| AuthController.ColonPasswordIsCut | controllers/AuthController.js:20 | no password containing a colon is ever read |
| AuthController.DecideLogin | controllers/AuthController.js:9-31 | the sign-in is granted exactly when the header yields credentials and some user has that email with `sha1(password)`; otherwise 401, or unanswered for the crash |
| AuthController.Connect | controllers/AuthController.js:8-41 | a denial leaves the sessions unchanged. A grant answers 200 with the token, and adds `auth_<token>` holding the user's id text with TTL 86400. Every other key is kept |
| AuthController.Disconnect | controllers/AuthController.js:44-65 | 204 exactly when the token is present and resolves, and then exactly its key is removed. Otherwise 401, with the sessions unchanged |
| AuthController.SecondDisconnectRefused | controllers/AuthController.js:52-60 | a second disconnect with the same token is a 401 |
| AuthController.ConnectedTokenResolves | controllers/AuthController.js:33-34 | the issued token resolves to the user's id text, and that text parses back to the user's id |
| AuthController.ConnectThenDisconnect | controllers/AuthController.js:33-58 | signing in with a fresh token, then signing out with it, answers 204 and restores the sessions as they were |
| AuthController.GetConnect | controllers/AuthController.js:8-41 | the handler's reply and sessions are those of `Connect` |
| AuthController.GetDisconnect | controllers/AuthController.js:44-65 | the handler's reply and sessions are those of `Disconnect` |
| UsersController.Register | controllers/UsersController.js:6-32 | `Missing email`, then `Missing password`, then `Already exist` when the email is taken, each leaving the users unchanged. Otherwise 201 with id and email, after appending exactly one user with the next id and `sha1(password)` |
| UsersController.RegisterKeepsEmailsUnique | controllers/UsersController.js:19-28 | registration keeps emails unique |
| UsersController.SecondRegistrationRefused | controllers/UsersController.js:19-22 | registering an email a second time is `Already exist` and changes nothing |
| UsersController.RegisteredUserCanConnect | controllers/UsersController.js:25-28 | a user who has just registered signs in with the same email and password, as that user |
| UsersController.PostNew | controllers/UsersController.js:6-37 | the handler's reply and users are those of `Register` |
| Worker.ThumbnailPath | worker.js:32 | a thumbnail path is longer than the local path and starts with it, so it never overwrites the original |
| Worker.ThumbnailPathInjective | worker.js:32 | two widths give the same path of a file exactly when they are the same width |
| Worker.ThreeDistinctPaths | worker.js:30-32 | the paths for 500, 250 and 100 are three different paths |
| Worker.Thumbnails | worker.js:31-35 | every thumbnail written is longer than the local path |
| Worker.ThumbnailKey | worker.js:32-35 | every path written is the thumbnail path of a width whose resize succeeded |
| Worker.ThumbnailAt | worker.js:33-35 | a width whose resize succeeds is written with the resized bytes, and a width whose resize fails is not written |
| Worker.AllResized | worker.js:38 | `Promise.all` over the widths succeeds exactly when every width's resize succeeds |
| Worker.FindJobFile | worker.js:13-27 | `Missing fileId` before `Missing userId`; malformed ids are rejected; `File not found` when no document has that id and owner; a found file has both ids and belongs to that user |
| Worker.JobFileFound | worker.js:23-27 | a job finds a file exactly when some document has that id and that owner |
| Worker.MakeThumbnails | worker.js:29-38 | the step completes exactly when the file has a local path, the original exists and every width resizes. No file is removed and the original is unchanged |
| Worker.ProcessFile | worker.js:12-39 | a rejected job leaves the disk unchanged. A job completes exactly when its file is found, the original exists and all three resizes succeed; a found file that fails does so in the thumbnail step. No file is removed |
| Worker.OnlyThumbnailsChange | worker.js:31-36 | every path the thumbnail step adds or changes is a thumbnail path of the file, never the original |
| Worker.JobChangesOnlyThumbnails | worker.js:12-39 | every path a job adds or changes is one of its file's thumbnail paths, so a rejected job writes nothing |
| Worker.ThreeThumbnails | worker.js:30-38 | when every width resizes, the disk gains exactly the three paths, each holding the original resized to its width |
| Worker.CompletedJobWritesThree | worker.js:30-38 | a completed job has written exactly `<localPath>_500`, `_250` and `_100`, each holding `resize(original, width)` |
| Worker.AllWidthsWritten | worker.js:30-35 | when every width resizes, the files written are exactly the three thumbnail paths, with the resized bytes |
| Worker.ThumbnailsIdempotent | worker.js:32-35 | re-running the thumbnail step on its own result changes nothing |
| Worker.RerunIsIdempotent | worker.js:12-39 | re-running a job on the disk it left gives the same outcome and the same disk, so the set of paths is unchanged after the first run |
| Worker.WriteThumbnails | worker.js:31-36 | the loop leaves the disk as the old disk plus the thumbnails of the original, and reports whether every width was written |
| Worker.ProcessFileJob | worker.js:12-39 | the handler's outcome and disk are those of `ProcessFile` |
| Worker.ProcessUser | worker.js:42-57 | `Missing userId`; a malformed id is rejected; `User not found` when no user has that id; otherwise it completes, logging `Welcome <email>!` for a user with that id |
| Worker.StoredUserWelcomed | worker.js:50-56 | a job carrying a stored user's id text welcomes exactly that user |

## Left out

- Session expiry. The TTL a session was stored with is recorded, but no clock expires it, so a session lives until it is deleted.
- Failures of MongoDB, Redis and the file system, with their 500 replies. The stores never fail.
- `mkdir` of the upload folder (controllers/FilesController.js:74). Directories are not modelled; the disk is a flat map from path to bytes.
- Library internals, which are parameters of the handlers:
  - SHA-1 (`sha1`);
  - `uuidv4()` (`uuid` and `token`);
  - base64 decoding (`decode`, `base64Text`);
  - `mime.lookup` (`lookup`);
  - `image-thumbnail` (`resize`, which reads the original bytes and can fail).
- Ids. `insertedId` is a counter that the collections do not bound. ObjectId text stands for numbers below 16^24, so the lemmas that read an id back from its text assume the counter has not passed 16^24. The 12-byte-string form that `ObjectId` also accepts is not modelled.
- Request bodies and job payloads of the wrong JSON type. For example, a numeric `parentId` other than 0 is left out. `isPublic` is a boolean, `parentId` is the number 0 or a string, and text fields are strings or absent.
- PageIndex: `parseInt` yields a double, exact only below 2^53, and `page * 20` is a double, while the store's `$skip` takes a 64-bit integer. The model's page numbers are unbounded integers, so a huge page is answered with an empty page instead of whatever the double arithmetic or the store would do.
- Concurrency. Handlers run one at a time. The three resizes of a job run concurrently in the source. That is modelled by writing every width whose resize succeeds and failing the job if any fails; the order of the writes does not matter, because the paths are distinct and never the original.
- Worker.ProcessFile: the rejection text of `image-thumbnail` is not known, so every failed resize fails the job with one fixed message.
- RegisteredUserCanConnect: holds for an email and password without colons. Sign-in cuts the password at its first colon, so a user who registered with a colon in the password signs in only if `sha1` gives the cut password the same digest.
- Queue delivery, retries and the `console.log` channel. The welcome line is the job's result.
- The Express wiring (server.js) and the connection plumbing (utils/db.js, utils/redis.js and controllers/AppController.js) are not part of this model.
