# StudyVault server core, modelled in Dafny

StudyVault is an Express server (`server.js`) for a catalogue of exam papers.
Administrators upload papers into a tree of Google Drive folders. Users upload
their own files to a single Drive folder. Anyone filters the catalogue. Accounts
are protected by one-time passwords (OTPs). This project models the parts of
that file that hold sequential logic, and proves what they promise:

- **Folder lookup and nested resolution** (`Drive`, `Paths`). The remote store
  is a sequence of folder nodes. `findFolder` answers with the first node whose
  name and parent match. `findNestedFolder` splits a path on `/`, walks it from
  `"root"`, and stops at the first segment that has no folder.
- **The two upload handlers** (`Ingest`, `Server`). Each is a pure step over
  one abstract store: Drive folders and files, the staging directory, and the
  `papers` and `user_uploads` tables. The class `Server.Backend` holds that
  store in fields, runs the handlers step by step, and each method is proved
  to end in exactly the state and outcome of its pure step.
- **The two query builders** (`Filter`). GET /api/Filter and
  GET /api/Profile/fetchpdf append SQL fragments and parameters one at a time.
  Both are methods proved against a description of the conditions they add,
  in order. The SQL text always holds one `?` per bound parameter.
- **OTP timing and sign-up validation** (`Otp`). The password-reset throttle
  and expiry, the sign-up address verification, and the sign-up form checks.
  All are pure functions over maps from an address to its row.

External services become inputs:

- the ids Drive assigns,
- whether an upload, insert or mail succeeded,
- the random OTP code,
- the current time, in integer milliseconds.

`Common` holds the shared vocabulary: `Option`, `Result`, JavaScript
truthiness of a request field, and counting a character in a string.

Four details of the JavaScript decide what the model does:

- `server.js` declares `findFolder` twice (lines 77 and 845). Function
  declarations are hoisted, so the second replaces the first for every call.
  The user upload at line 185 therefore also looks up its folder under
  `"root"`, and the model does the same.
- A title collision in the admin upload is modelled as the code behaves. The
  uploaded Drive object is not deleted and the staged file stays in place.
- The admin destination is built by joining attributes with `/` and walked
  after splitting on `/`. An attribute that itself contains `/` therefore adds
  levels to the walk; the source and `Ingest.AdminUploadStep` both do this,
  and `Ingest.AdminPathWalked` states the exact segments only for attributes
  without `/`.
- The filter route's "no filter" guard tests `sem` and `midSem` for
  truthiness, while the term group needs the string "true". A request such as
  `?sem=false` alone therefore passes the guard and queries the whole
  catalogue (`Filter.FilterUnconstrained`).

## Model

| member | source | states |
|---|---|---|
| Paths.Split | server.js:867 | `split("/")` yields one segment more than the string has slashes, and no segment contains a slash |
| Paths.SplitJoin | server.js:933-938 | splitting a path joined from slash-free segments gives back exactly those segments |
| Paths.JoinSplit | server.js:867 | joining the pieces of any string with `/` restores the string |
| Drive.FirstMatch | server.js:847-852 | the index found matches, every earlier node does not, and the listing's end means no match |
| Drive.FindFolder | server.js:845-864 | the listing lookup under one parent; what it answers is stated by FindFolderFirst and FindFolderAppend |
| Drive.FindFolderFirst | server.js:845-864 | a lookup answers null exactly when no node has that name and parent; otherwise it answers the id of the first such node in listing order |
| Drive.FindFolderAppend | server.js:845-864 | adding a folder never changes an answer that existed; it answers a lookup that had no answer exactly when it matches |
| Drive.Resolve | server.js:866-883 | the walk of `findNestedFolder` from a parent, ending at the last id or at the first missing segment; stated by ResolveFollowsChain, ResolveStopsAtMiss and ResolveShape |
| Drive.Queries | server.js:866-883 | the listings that walk issues, in order; stated by the same three lemmas |
| Drive.ResolveFollowsChain | server.js:866-883 | when each segment is found under the one before, starting from the given parent, the walk returns the last segment's id and lists each segment once, in order, under its parent |
| Drive.ResolveStopsAtMiss | server.js:866-883 | when the first k segments are found and segment k is not, the walk reports segment k missing and issues exactly k+1 listings, none for later segments |
| Drive.ResolveShape | server.js:866-883 | a missing segment lies inside the path and ends the listings there; a resolved non-empty path gives a non-empty id and lists every segment |
| Drive.ViewUrl | server.js:192 | the view link is the fixed prefix, the file id, then `/view` |
| Drive.ViewUrlInjective | server.js:964 | two distinct file ids never get the same view link |
| Ingest.TermFlags | server.js:923-930 | `sem` is 1 exactly for "sem", `midsem` is 1 exactly for "midSem", both are 0 or 1, and never both 1 |
| Ingest.AdminSegments | server.js:933-938 | the destination starts with "MPC Papers Pdf" and ends with the department, with at least two segments |
| Ingest.AdminFolderPath | server.js:933-938 | the two template literals: the destination segments joined with `/`; its meaning is stated by AdminPathWalked |
| Ingest.AdminPathWalked | server.js:933-941 | when no attribute contains `/`, the walked segments are exactly [root, department] for Elective, Compulsory and E&V, and [root, level, term, student year, department year, department] otherwise |
| Ingest.FindNested | server.js:866-883 | a found folder leaves the store unchanged; a missing one empties the staging directory and changes nothing else |
| Ingest.FindNestedFound | server.js:871-882 | a folder the nested lookup finds always has a usable, non-empty id |
| Ingest.UserFolderId | server.js:185-188 | the folder found under the root, or else the one created; stated by UserUploadReusesFolder and SecondUserUploadCreatesNothing |
| Ingest.UserUploadStep | server.js:175-225 | a user upload never touches `papers`; it reports "no file" exactly when no file came, and then changes nothing |
| Ingest.UserUploadCreatesFolderOnlyWhenMissing | server.js:185-188 | the folder listing changes only when the lookup under the root found nothing and creation succeeded, and then grows by exactly that one folder |
| Ingest.UserUploadReusesFolder | server.js:185-188 | after an upload got a folder, the lookup under the root answers with that same folder id |
| Ingest.SecondUserUploadCreatesNothing | server.js:185-188 | a second upload creates no folder and uses the folder id of the first |
| Ingest.UserUploadSuccess | server.js:191-214 | a success inserts exactly one row (user id, new name, view link), stores the file once in the upload folder, and unlinks the staged file |
| Ingest.UserUploadUnlinksLast | server.js:195-214 | the staged file is unlinked only on success, after the insert succeeded; every failure leaves staging as it was |
| Ingest.UserUploadInsertFailure | server.js:195-206 | a failed insert adds no row, yet the uploaded object stays in Drive |
| Ingest.UserOutcome.Status | server.js:175-225 | maps each user-upload outcome to its response code: 400 for no file, 500 for a failure, 200 for a success; `Ingest.UserStatus` states when each arises |
| Ingest.UserStatus | server.js:175-225 | 400 exactly when no file came; 200 exactly when a folder was found or created, the upload answered, the insert (attempted only for a non-empty id) succeeded and the staged file was there to unlink; 500 in every other case |
| Ingest.PaperRowFor | server.js:967-980 | the inserted row maps years to session, departmentYear to studentyear, semester to dptyear, the flags to TermFlags, and url to the view link |
| Ingest.AdminUploadStep | server.js:904-1002 | an admin upload never changes folders or user uploads; it reports "no file" exactly when no file came, and then changes nothing |
| Ingest.AdminMissingFolder | server.js:941-945 | a missing destination folder aborts with status 401 before any upload or insert, leaving the staging directory empty |
| Ingest.AdminInsertOrdering | server.js:948-980 | a `papers` row is added only after the folder was found, the upload returned a usable id, no row had the title and the insert succeeded; it is the row built from the request, added once |
| Ingest.AdminDuplicateTitle | server.js:954-961 | on a title collision no row is inserted, the uploaded object stays in Drive, and nothing else changes: staging keeps the file |
| Ingest.AdminSuccess | server.js:948-986 | a success stores the file in the resolved folder, appends its row and unlinks the staged file, and nothing else changes |
| Ingest.AdminKeepsTitlesUnique | server.js:954-980 | if catalogue titles are unique before an admin upload, they are unique after it |
| Ingest.HasTitle | server.js:954-957 | the pre-insert title lookup: some catalogue row already has the new title; `Ingest.AdminDuplicateTitle` and `Ingest.AdminStatus` state its effect |
| Ingest.AdminOutcome.Status | server.js:904-1002 | maps each admin-upload outcome to its response code: 400, 401, 300, 400, 500, 200; `Ingest.AdminStatus` states when each arises |
| Ingest.AdminStatus | server.js:904-1002 | 401 exactly for a file whose folder is missing; 300 exactly when the upload returned an empty id; 400 exactly for no file or a taken title; 500 exactly when the upload threw or the insert failed; 200 exactly when folder, id and insert all succeed under a fresh title |
| Server.Backend.ListFolder | server.js:845-864 | the listing loop answers what FindFolder answers and records one lookup |
| Server.Backend.DeleteTempFiles | server.js:886-900 | unlinking every listed entry leaves the staging directory empty |
| Server.Backend.FindNestedFolder | server.js:866-883 | the loop reaches the state and answer of FindNested, and its lookups are exactly those of the walk |
| Server.Backend.CreateDriveFolder | server.js:99-117 | a created folder is one new node directly under the root; a failed call changes nothing |
| Server.Backend.UploadFileToDrive | server.js:120-156 | an uploaded file is one new object in the given folder; a failed call changes nothing |
| Server.Backend.UserUpload | server.js:175-225 | the handler ends in the store and outcome of UserUploadStep, and looks up only the upload folder under the root |
| Server.Backend.AdminUpload | server.js:904-1002 | the handler ends in the store and outcome of AdminUploadStep, keeps titles unique, and issues exactly the walk's lookups |
| Filter.AddCondition | server.js:587-590 | a valued condition and its one parameter are appended exactly when the field is truthy, keeping text and parameters those of the conditions so far (the same step recurs at server.js:609-624 and 237-244) |
| Filter.CollectLevels | server.js:593-600 | the levels are "ug" then "pg", each only when asked for |
| Filter.AddLevels | server.js:593-605 | the IN condition and its one list parameter are added exactly when a level is asked for |
| Filter.AddTermGroup | server.js:626-637 | the term group text is added exactly when sem or midSem is "true", with no parameter |
| Filter.FilterClausesOrdered | server.js:587-637 | conditions come in the fixed order department, levels, from, to, department year, term group; each at most once; each valued one binds one parameter |
| Filter.FilterClausesPresence | server.js:587-637 | a condition is present exactly when its field asks for it: truthy fields, "ug"/"pg" levels, and a term group with exactly the flags set to "true" |
| Filter.FilterLevels | server.js:593-605 | the levels condition binds ["ug"], ["pg"] or ["ug", "pg"], as asked |
| Filter.FilterTermGroup | server.js:626-637 | the term group is added at most once, last, without a parameter, exactly when sem or midSem is "true" |
| Filter.FilterNoParameters | server.js:587-623 | no parameter is bound exactly when none of the five valued filters is given |
| Filter.FilterParams | server.js:587-623 | the bound parameters are, in order, the department, the level list, the from year, the to year and the department year, each only when asked for |
| Filter.FilterUnconstrained | server.js:626-642 | a truthy sem or midSem other than "true", with no valued filter, passes the "no filter" guard yet adds no condition, so the query is the whole catalogue |
| Filter.FilterPlaceholders | server.js:582-637 | the filter SQL holds exactly one `?` per bound parameter |
| Filter.BuildFilterQuery | server.js:581-642 | the "no filter" error comes exactly when no parameter is bound and neither sem nor midSem is truthy; otherwise the text and parameters are those of the ordered conditions, one `?` per parameter |
| Filter.UserFileParams | server.js:234-245 | the optional parameters are the paper name then the link, each only when truthy |
| Filter.UserFilePlaceholders | server.js:234-245 | the owner query holds one `?` for the owner plus one per optional parameter |
| Filter.BuildUserFileQuery | server.js:229-245 | the owner id is always the first parameter, followed by the optional conditions in order, one `?` per parameter |
| Otp.ForgotPassword | server.js:660-726 | 409 exactly for an unknown address; 429 exactly when the last code was sent less than 30 s ago, with nothing changed; otherwise the code, an expiry 10 minutes on and the send time are stored, and no other account changes; the reply is then 200 exactly when the mail went out and 500 exactly when it failed |
| Otp.ThrottleRefuses | server.js:672-675 | the resend throttle: a previous send time exists and lies less than 30000 ms back; `Otp.ResendThrottle` and `Otp.VerifyLiftsThrottle` state its effect |
| Otp.ExpiresAt | server.js:739-745 | a stored expiry read back as an instant, a NULL column as the epoch as `new Date(null)` gives |
| Otp.Expired | server.js:744-746 | the expiry test of both verification routes (also lines 331-335): the stored instant lies before now; `Otp.ResetCodeWindow`, `Otp.SignupCodeWindow` and `Otp.ExpiredStays` state its effect |
| Otp.VerifyResetOtp | server.js:729-766 | 409 exactly when the code is not the stored one, 410 exactly when it is but has expired, both changing nothing; otherwise code, expiry and throttle stamp are cleared and no other account changes |
| Otp.ResetCodeWindow | server.js:683-753 | a code issued at t is accepted exactly up to t + 600000 ms and refused as expired after |
| Otp.ResetCodeReplaced | server.js:685-742 | after a new code is issued, any other code is refused |
| Otp.ResendThrottle | server.js:672-689 | a second request is throttled exactly when it comes less than 30000 ms after the first, and then leaves the table alone |
| Otp.ResetCodeSingleUse | server.js:749-753 | a verified code is refused the second time |
| Otp.VerifyLiftsThrottle | server.js:749-753 | after a verification the next request is never throttled |
| Otp.ExpiredStays | server.js:745 | once a code has expired it stays expired |
| Otp.RequestSignupOtp | server.js:259-314 | the sign-up code request reports success exactly when the mail went out |
| Otp.RequestStoresCode | server.js:267-280 | known or new, the address ends with one row holding the new code and an expiry 10 minutes on; no other row changes |
| Otp.ConfirmSignupOtp | server.js:317-349 | 405 exactly for a wrong code or unknown address, 410 exactly for an expired code, both changing nothing; otherwise the row is removed |
| Otp.SignupCodeWindow | server.js:275-336 | a sign-up code requested at t confirms exactly up to t + 600000 ms and is refused as expired after |
| Otp.SignupCodeReplaced | server.js:275-328 | a new request replaces the code, so an earlier, different code is refused |
| Otp.SignupCodeSingleUse | server.js:338-342 | a confirmed address cannot be confirmed again with any code |
| Otp.ValidateSignup | server.js:358-364 | an accepted form has a non-empty password equal to its confirmation |
| Otp.ValidateSignupCases | server.js:358-364 | "All fields are required" exactly when one of the six fields is missing or empty; "Passwords do not match" exactly when all are given but the passwords differ; accepted otherwise |

## Left out

- The first `findFolder` (server.js:77-97): hoisting replaces it with the second declaration, so no call ever reaches it.
- Drive's listing order and trashed items: the model answers the first match in store order, which stands for whatever order Drive returns.
- Drive query-string quoting and the folder MIME-type filter: a name containing a quote is treated as an exact name.
- Failures of the folder listing and of the directory read and unlinks inside `deleteTempFiles`: listings always answer, and the staging directory is always emptied.
- The unawaited `permissions.create` call: it has no effect on any outcome.
- Multer storage, timestamped file names and the `.tmp.driveupload` handling: staged files are given, distinct names.
- Express routing, response bodies, cookies, bcrypt, JWT, nodemailer and `crypto.randomInt`: these are foreign libraries. Their results are inputs: the OTP code is a string parameter, and mail success is a flag.
- MySQL execution: string comparison follows exact equality, not the table's collation. The attributes of a row other than the OTP columns are not modelled. `users` and `useremailverification` are keyed by address, one row each.
- Database errors (HTTP 500 from a `catch`) are modelled only for the upload inserts. The OTP routes assume their queries succeed.
- The `affectedRows === 0` check after clearing a verified code (server.js:755-758): the row was just read, so the model treats the update as always affecting it.
- Otp.ForgotPassword: the send time and the expiry's base come from two clock reads (`new Date()` and `Date.now()`). The model uses one instant for both.
- Date parsing: a NULL expiry reads as the epoch, as `new Date(null)` gives. Stored times are otherwise integers.
- Request fields that are not strings (arrays or objects from the query or body parser): the filter and fetchpdf query fields and the sign-up form fields are optional strings; every other field is a required string.
- Missing body fields of the upload and OTP routes: `renameFileback` and `userid` of the user upload, `renameFileback` and the six classification attributes of the admin upload, `email` of the OTP routes, and `userid` of GET /api/Profile/fetchpdf (server.js:230) are modelled as present strings. The fetchpdf `userid` is read from the body of a GET request; when it is absent the owner condition binds NULL and matches no row, which the model does not capture. A missing `renameFileback` in the admin upload makes the title check `title = NULL`, which never matches, so every such upload inserts a row with a NULL title; the model does not capture this.
- `JSON.parse(filtetuploaddata)` and its destructuring (server.js:905-915) run before the handler's `try`: a missing or malformed value throws outside the `catch` at server.js:998-1001, no response is sent and the staged file stays. The model starts from already parsed attributes.
- The race between the title check and the insert, and concurrent folder creation: these are concurrency, which a sequential model cannot express.
- The rest of the sign-up handler after validation, the login, reset-password and feedback routes, and the read-only lookup routes: they are single queries, or foreign library calls, with no logic of their own.
- Removing the orphaned Drive object after a title collision: the code does not do it, so neither does the model.
