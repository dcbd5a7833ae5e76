# chaya-app farmer records: a Dafny model

chaya-app is a Next.js application in which staff record farmers: their
identity, their bank details, their fields with a GPS location, and scanned
documents kept in a storage bucket. Administrators manage staff accounts and
export the farmer table as a PDF or a spreadsheet. This project models the
decision and transformation logic of its request handlers and client store:

- the zod schemas for a new farmer, an update and an uploaded file, as lists of issues
  (`validation.dfy`);
- the middleware that gates admin and protected routes on the session cookie (`middleware.dfy`);
- login's credential check and the session it issues (`login.dfy`);
- the survey-number generator's retry loop (`survey_number.dfy`);
- the farmer handlers (`farmers_route.dfy`):
  - POST: validate, draw a survey number, upload the documents, write the row, and map thrown errors to answers;
  - GET: the search and filter predicate, the page and the page count;
- the farmer export: caller checks, range to skip/take, the rows with signed links, flattening and the file name (`export.dfy`);
- the staff administration handlers (`users.dfy`);
- the district lookup (`location_data.dfy`);
- the client's auth store (`auth_store.dfy`).

Supporting modules:

- `wrappers.dfy` holds Option and Result.
- `text.dfy` models the JavaScript string built-ins the handlers use.
- `ordering.dfy` models `orderBy` on a key and `skip`/`take`.
- `records.dfy` holds the stored rows.

The database tables are sequences and the bucket is a set of object paths.

Environment inputs and how they are modelled:

- Clock readings, random draws, the SHA-256 digest and URL signing are parameters.
- Each uploaded form file comes bundled with the clock reading at its upload and the storage's answer.
- The handlers' `Promise.all` fan-outs run one after another, in the order the code lists them.

Stateful code keeps its form:

- The farmer handler's store (`FarmersRoute.FarmerStore`), the user table (`Users.UserTable`) and the auth store (`AuthStore.AuthState`) are classes whose methods update their fields.
- The survey-number loop and the document uploads (`FarmerStore.UploadRun`) are `while` loops with invariants.

## Model

| member | source | states |
|---|---|---|
| Validation.IfscPatternMeaning | lib/validation/farmer.ts:5 | `^[A-Z]{4}0[A-Z0-9]{6}$` matches a string iff it is 11 characters: four capitals, '0', then six capitals or digits |
| Validation.DigitsPatternMeaning | lib/validation/farmer.ts:35-36 | `^\d{n}$` matches exactly the strings of n digits (12 for Aadhar, 10 for contact) |
| Validation.FieldsIssuesEmptyIff | lib/validation/farmer.ts:15-28 | the field list has no issues iff every field has areaHa and yieldEstimate ≥ 0, -90 ≤ lat ≤ 90, -180 ≤ lng ≤ 180 and accuracy ≥ 0, bounds inclusive |
| Validation.CreateIssuesEmptyIff | lib/validation/farmer.ts:4-46 | a create payload gets no issue iff it meets every constraint: these are non-empty name, enum members, 12- and 10-digit numbers, IFSC, account ≥ 8, at least one field, every field valid |
| Validation.CreateIssues | lib/validation/farmer.ts:4-46 | the issues `CreateFarmerSchema.parse` reports, in the schema's key order; what an empty list means is stated by CreateIssuesEmptyIff |
| Validation.NoFieldsRejected | lib/validation/farmer.ts:45 | an empty field list gives the issue "At least one field is required" at path `fields` |
| Validation.NegativeFieldRejected | lib/validation/farmer.ts:24-25 | a negative areaHa or yieldEstimate in any field makes the payload invalid |
| Validation.FileIssuesEmptyIff | lib/validation/farmer.ts:47-52 | a file passes iff its size ≤ 5242880 and its type is image/jpeg, image/png or application/pdf |
| Validation.FileIssues | lib/validation/farmer.ts:47-52 | the size and type issues of `FileSchema`; FileIssuesEmptyIff states when there are none |
| Validation.UpdateIssuesEmptyIff | lib/validation/farmer.ts:53-89 | an update is accepted iff every present key passes its check; absent keys are not checked |
| Validation.UpdateIssues | lib/validation/farmer.ts:53-89 | the issues of the update schema, one check per present key; UpdateIssuesEmptyIff states when there are none |
| Validation.EmptyUpdateAccepted | lib/validation/farmer.ts:53-89 | the update with every key absent is valid |
| Validation.UpdateLooserThanCreate | lib/validation/farmer.ts:53-88 | every create payload the create schema accepts, read as an update, passes the update schema; and the update schema checks only relationship, gender and the two digit strings, so any name, IFSC code, account number or field list passes there |
| Middleware.SomePrefix | middleware.ts:15-20 | `routes.some(r => path.startsWith(r))` is true iff some listed route is a prefix of the path |
| Middleware.StartsWithTransitive | middleware.ts:15-20 | a path that starts with p + q starts with p |
| Middleware.MatcherPathsAreGated | middleware.ts:59-69 | every path the matcher selects is an admin or a protected route |
| Middleware.PrefixNotSegment | middleware.ts:15-20 | classification is by string prefix: "/api/users-report" is an admin route and "/dashboards" a protected one |
| Middleware.DiffersAt | middleware.ts:15-20 | a path that differs from p at a position both have does not start with p |
| Middleware.MatcherSkipsDashboardSubpaths | middleware.ts:59-69 | "/dashboard/settings" is not handed to the middleware |
| Middleware.UngatedPassesThrough | middleware.ts:22-24 | a path on neither list passes through whatever the cookie holds |
| Middleware.MissingCookieRedirects | middleware.ts:26-30 | on a gated path a missing session cookie redirects to /signin |
| Middleware.UnparsableSessionFails | middleware.ts:32-55 | a cookie whose value does not parse gives a 500 "Internal server error" |
| Middleware.ExpiredGoesToSignIn | middleware.ts:34-40 | exp < now redirects to /signin, before and regardless of the role check |
| Middleware.NonAdminOnAdminRoute | middleware.ts:38-40 | a live non-ADMIN session on an admin route redirects to /dashboard |
| Middleware.ForwardIff | middleware.ts:22-49 | the request is forwarded iff the path is gated, the session parses, exp ≥ now, and the route is not admin or the role is ADMIN |
| Middleware.ForwardedHeaders | middleware.ts:42-49 | a forwarded request carries x-user-id as the decimal userId and x-user-role as the role, and keeps every other header |
| Middleware.Decide | middleware.ts:12-57 | the middleware body, branch by branch; ForwardIff and the redirect lemmas state its answers |
| Middleware.Run | middleware.ts:59-69 | the middleware runs only on paths the matcher selects; MatcherPathsAreGated and MatcherSkipsDashboardSubpaths state which |
| Login.MissingCredentialsRejected | app/api/auth/login/route.ts:9-11 | a missing or empty email or password gives 400 "Email and password are required" |
| Login.LoginSucceedsIff | app/api/auth/login/route.ts:12-21 | login succeeds iff a row has the email and hash(password) as its password; otherwise the same 401 "Invalid credentials" |
| Login.IssuedSession | app/api/auth/login/route.ts:22-37 | the session carries the row's id and role, exp = now + 604800000, maxAge·1000 = exp − now, and the answer is the row without its password |
| Login.LoginIgnoresIsActive | app/api/auth/login/route.ts:12-21 | an inactive user with the right password still logs in |
| Login.FreshSessionPassesGate | app/api/auth/login/route.ts:25 | a session issued at t passes the middleware's expiry check at every later ≤ t + 604800000 |
| Login.StaleSessionRedirected | app/api/auth/login/route.ts:25 | after t + 604800000 the same session is redirected to /signin |
| Login.Login | app/api/auth/login/route.ts:5-42 | the login handler, branch by branch; LoginSucceedsIff and IssuedSession state its answers |
| SurveyNumber.CandidateShape | utils/helper.ts:8-10 | every candidate is 11 characters: letter k is code 65 + k, and the last seven are digits that read back as the drawn number |
| SurveyNumber.GenerateSurveyNumber | utils/helper.ts:3-18 | at least one draw is checked; every earlier candidate was taken; the result is the first free candidate (FirstFree), absent from the table and well-formed; it is found iff some draw gives a free one |
| SurveyNumber.FirstFree | utils/helper.ts:3-18 | the first candidate of the draws that is not taken: when there is one it is absent from the table (GenerateSurveyNumber adds that it is well-formed) |
| SurveyNumber.FirstFreeFound | utils/helper.ts:3-18 | a free candidate is found exactly when some draw gives one |
| Text.DecimalRoundTrip | utils/helper.ts:9 | reading back `String(n)` gives n |
| Text.DecimalLength | utils/helper.ts:9 | a number below 10^k has at most k digits, so padding to 7 never truncates |
| Text.ValueOfLeadingZeros | utils/helper.ts:9 | `padStart` with '0' leaves a digit string's value unchanged |
| Text.PadStart | utils/helper.ts:9 | the padded text is at least as long as the width, ends with the original and has only the fill before it |
| Text.AfterLastDot | app/api/farmers/route.ts:82 | `split('.').pop()` holds no '.', and is the whole name when the name has none |
| Text.AfterLastDotIsSuffix | app/api/farmers/route.ts:82 | the extension is a suffix of the name, preceded by a '.' when the name has one |
| Text.Lower | lib/utils/locationData.ts:8 | `toLowerCase` keeps the length and lower-cases each character |
| Text.LowerIdempotent | lib/utils/locationData.ts:8 | lower-casing twice is lower-casing once |
| FarmersRoute.SegmentTexts | app/api/farmers/route.ts:172-175 | each path segment is rendered in place: keys by name, indices in decimal |
| FarmersRoute.Details | app/api/farmers/route.ts:172-175 | one detail per zod issue, in order, with the path joined by '.' and the issue's message |
| FarmersRoute.Classify | app/api/farmers/route.ts:155-242 | the catch block's chain, branch by branch; ClassifyStatus states which answers are 400 and which 500 |
| FarmersRoute.ClassifyStatus | app/api/farmers/route.ts:155-242 | every thrown value is answered 400 or 500, and 400 exactly for the client faults the catch chain recognises |
| FarmersRoute.OtherStorageStatusIs500 | app/api/farmers/route.ts:190-205 | a storage error whose status is neither '413' nor '400' is answered 500 "File upload failed" |
| FarmersRoute.DuplicateNamesField | app/api/farmers/route.ts:223-228 | P2002 with a target is answered 400 "Duplicate entry for <first target>" |
| FarmersRoute.FieldIssueDetail | app/api/farmers/route.ts:167-178 | a zod issue at key k of field i is answered 400 with the single detail "fields.<i>.<k>" and the issue's message |
| FarmersRoute.FieldPathText | app/api/farmers/route.ts:172-175 | the path fields / i / k joins to "fields.<i in decimal>.<k>" |
| FarmersRoute.UploadFile | app/api/farmers/route.ts:65-93 | `uploadFile`'s checks in order (missing file, file schema, taken path, storage error), then the stored name; UploadSucceeded and UploadSlot state its outcomes |
| FarmersRoute.UploadSucceeded | app/api/farmers/route.ts:65-93 | a successful upload had a file that passed the file schema, the path was free, and the result is `<surveyNumber>_<ts>.<ext>` |
| FarmersRoute.StoredNameKeepsExtension | app/api/farmers/route.ts:82-83 | the stored name's extension is the original file's extension |
| FarmersRoute.AfterLastDotOfSuffix | app/api/farmers/route.ts:82-83 | text ending in '.' followed by dot-free text has that text as its extension |
| FarmersRoute.MissingDocumentAnswer | app/api/farmers/route.ts:67-70 | a missing file fails with "<folder> document is required" and is answered 400 "File validation failed" |
| FarmersRoute.StorageRefusalAnswer | app/api/farmers/route.ts:87-90 | a refused upload is rethrown as a plain error: 400 only if its message has a file phrase, else 500 |
| FarmersRoute.SameMillisecondLandDocsCollide | app/api/farmers/route.ts:82-85 | two land documents with the same extension uploaded in the same millisecond get the same path, so the second is refused |
| FarmersRoute.UploadAll | app/api/farmers/route.ts:94-102 | the uploads of a list of form keys one after another, the first that throws ending the run; the lemmas below state what it leaves |
| FarmersRoute.UploadSlot | app/api/farmers/route.ts:65-93 | one upload succeeds iff its file is present, passes the file schema, its path is free and the storage takes it; it then stores the slot's name |
| FarmersRoute.SlotsAcceptedCons | app/api/farmers/route.ts:94-102 | a run is accepted iff its first slot is ok and the rest is accepted in the bucket that upload leaves |
| FarmersRoute.UploadAllSucceedsIff | app/api/farmers/route.ts:94-102 | a run of uploads succeeds iff every slot is ok in the starting bucket and no two slots share a path |
| FarmersRoute.UploadAllStored | app/api/farmers/route.ts:94-102 | a successful run returns one name per slot, name k the stored name of slot k, each in the bucket, and the bucket gains exactly the slots' paths |
| FarmersRoute.UploadAllFailsAtFirst | app/api/farmers/route.ts:94-102 | a failed run failed at its first slot that is not ok: the earlier slots were uploaded, and the error is the one that slot's upload throws in the bucket they left |
| FarmersRoute.FailedAtShift | app/api/farmers/route.ts:94-102 | a failure at slot k of the rest of a run after an accepted first slot is a failure at slot k + 1 of the run |
| FarmersRoute.UploadAllGrows | app/api/farmers/route.ts:94-102 | a run of uploads never removes an object from the bucket |
| FarmersRoute.UploadAllAppend | app/api/farmers/route.ts:94-102 | the personal documents then the land documents are one run: the second starts in the bucket the first left, and does not start if the first failed |
| FarmersRoute.FieldRecords | app/api/farmers/route.ts:138-145 | field row i keeps field i's area, yield and location and gets land document i; as many rows as fields |
| FarmersRoute.LocationColumnAsWritten | app/api/farmers/route.ts:142 | the location column as written: `JSON.parse` of the location object, which throws; LocationReparseFails states it |
| FarmersRoute.LocationReparseFails | app/api/farmers/route.ts:142 | `JSON.parse` of the already-parsed location object always throws |
| FarmersRoute.ReparseAnswered500 | app/api/farmers/route.ts:155-242 | that parse error is answered 500 "Failed to create farmer record" |
| FarmersRoute.ValidatedCreateFailsAsWritten | app/api/farmers/route.ts:139-142 | as written, every validated payload fails while its field rows are built, and the answer is 500 |
| FarmersRoute.AbsentCharNotContained | app/api/farmers/route.ts:180 | a message lacking one of a phrase's characters does not include the phrase |
| FarmersRoute.DocumentsStayStored | app/api/farmers/route.ts:85 | documents stored for a row stay stored when the bucket only grows |
| FarmersRoute.BucketGrowthKeepsInvariant | app/api/farmers/route.ts:85 | uploading objects keeps the store invariant |
| FarmersRoute.InsertKeepsInvariant | app/api/farmers/route.ts:105-149 | a row with a fresh survey number, its documents stored and the next id keeps survey numbers unique and every document stored |
| FarmersRoute.NewFarmerRecorded | app/api/farmers/route.ts:105-149 | the row built from successful uploads holds the payload and the caller as creator and updater. Each document has its stored name, field i has land document i, and all its documents are in the bucket. The field rows are built as line 142 evidently intends (FieldRecords), not as written |
| FarmersRoute.NewFarmer | app/api/farmers/route.ts:105-149 | the aggregate `prisma.farmer.create` writes, with the corrected field rows; NewFarmerRecorded states what it holds |
| FarmersRoute.FarmerStore.constructor | app/api/farmers/route.ts:18 | an empty table and bucket satisfy the invariant |
| FarmersRoute.FarmerStore.Upload | app/api/farmers/route.ts:65-93 | the answer is `uploadFile`'s, and on success the bucket gains exactly `<folder>/<name>` |
| FarmersRoute.FarmerStore.Create | app/api/farmers/route.ts:18-163 | the invariant is kept and the bucket only grows. A JSON syntax error, or a validation failure with the zod details, is answered before any upload. A valid payload is answered with the first failing upload's error, else P2003 when the caller has no user row, else the created row: it succeeds iff the payload is valid, every document slot is accepted for the drawn number, and the caller exists. Any failure writes no row. On success one row is appended with the next id and the first free survey number, recorded as `Recorded` states, with line 142 corrected |
| FarmersRoute.FarmerStore.Persist | app/api/farmers/route.ts:62-149 | after validation: the bucket ends as the run of all document uploads for the first free number leaves it; the answer is that run's first error, else P2003 without a caller row, else the created row; any failure writes no row; success appends the recorded row (line 142 corrected) with that number |
| FarmersRoute.FarmerStore.UploadEveryDocument | app/api/farmers/route.ts:94-102 | the personal documents then the land documents: the bucket is the combined run's, the answer fails exactly when that run does and with its first error, and on success every name is stored and in the bucket |
| FarmersRoute.FarmerStore.UploadDocuments | app/api/farmers/route.ts:95-99 | the answer and the bucket are the run of profilePic, aadharDoc and bankDoc: its first error, or the three stored names, each in the bucket under its folder |
| FarmersRoute.FarmerStore.UploadFieldDocs | app/api/farmers/route.ts:102 | the answer and the bucket are the run of `fieldDoc_0` … `fieldDoc_<n-1>`: its first error, or name k from `fieldDoc_k`, in the bucket under land-doc |
| FarmersRoute.FarmerStore.UploadRun | app/api/farmers/route.ts:94-102 | uploading a list of slots in order leaves exactly the answer and the bucket of UploadAll |
| FarmersRoute.BuildWhere | app/api/farmers/route.ts:257-280 | the `where` built step by step matches a farmer iff the query's search, state and district (when non-empty) do |
| FarmersRoute.Matching | app/api/farmers/route.ts:257-285 | the rows the built `where` selects, in table order; MatchingIsSelected states which |
| FarmersRoute.Selected | app/api/farmers/route.ts:281-285 | the selected rows are the matching rows of the table, each as often as in the table |
| FarmersRoute.MatchingIsSelected | app/api/farmers/route.ts:281-285 | reading through an equivalent `where` selects the same rows in the same order |
| FarmersRoute.PageCount | app/api/farmers/route.ts:326 | `Math.ceil(total / limit)`: the pages hold all rows and the last page is not empty |
| FarmersRoute.NewestFirstSlice | app/api/farmers/route.ts:316-318 | a slice of a newest-first list is newest first |
| FarmersRoute.WindowRowsSelected | app/api/farmers/route.ts:281-285 | every row on a page is a table row the query matches |
| FarmersRoute.RowsBefore | app/api/farmers/route.ts:256 | skip = (page − 1)·limit is never negative for page ≥ 1 |
| FarmersRoute.PageOf | app/api/farmers/route.ts:281-319 | one page: the matches newest first, after skipping (page − 1)·limit and taking limit; PageRows states its properties |
| FarmersRoute.PageRows | app/api/farmers/route.ts:281-319 | a page holds at most `limit` rows, each a matching table row, ordered by createdAt descending |
| FarmersRoute.WherePage | app/api/farmers/route.ts:281-319 | the page read through the built `where` is the query's page |
| FarmersRoute.ListFarmers | app/api/farmers/route.ts:245-330 | the answer is the query's page, total counts every match regardless of paging, pages = ceil(total/limit), and page and limit are echoed |
| FarmersRoute.EveryMatchOnItsPage | app/api/farmers/route.ts:256-326 | every match k is on page k / limit + 1 of the ordered matches, and that page is within `pages` |
| FarmersRoute.EveryRowOnItsPage | app/api/farmers/route.ts:256-326 | row k of any list lies in window (k / limit)·limit of size limit, a page within the page count |
| FarmersRoute.WindowHolds | app/api/farmers/route.ts:283-284 | a window starting at most at k and reaching past k holds row k |
| FarmersRoute.PagesAboveIndex | app/api/farmers/route.ts:326 | when k < pages·limit, the page of k is at most `pages` |
| FarmersRoute.AbsentParamsDefault | app/api/farmers/route.ts:250-251 | without a page or limit parameter, or with an empty one, the query is page 1 with 10 rows a page |
| FarmersRoute.DecimalParamsRead | app/api/farmers/route.ts:250-254 | page and limit written in decimal read back as those numbers; search, state and district pass through |
| Ordering.InsertBy | app/api/farmers/route.ts:316-318 | insertion into a list sorted by key keeps it sorted and adds exactly the element |
| Ordering.SortBy | app/api/farmers/route.ts:316-318 | `orderBy`: the result is sorted by key and is a permutation of the input |
| Ordering.Window | app/api/farmers/route.ts:283-284 | `skip`/`take`: the run from `skip` of at most `take` rows, or empty when skip passes the end |
| Ordering.WindowSplit | app/api/export/farmers/route.ts:43 | a window of a + b rows is the window of a followed by the next window of b |
| Ordering.Reversed | app/api/export/farmers/route.ts:46-48 | the reversal has the same length and element i is element n − 1 − i |
| Records.FindUserById | app/api/export/farmers/route.ts:20-23 | a found user has the id and is in the table; none found means no row has it |
| Records.FindUserByEmail | app/api/auth/login/route.ts:12-14 | a found user has the email and is in the table; none found means no row has it |
| Export.RangeToWindow | app/api/export/farmers/route.ts:35-44 | the if/else chain gives skip 0 and no take for ALL; CURRENT_PAGE and CUSTOM_RANGE give `(pageStart−1)·L` with take L or `(pageEnd−pageStart+1)·L` |
| Export.RangeWindow | app/api/export/farmers/route.ts:35-44 | the skip and take each range asks for, NaN when a needed page bound is missing; its lemmas state ALL, CURRENT_PAGE and CUSTOM_RANGE |
| Export.Read | app/api/export/farmers/route.ts:46-57 | how the store reads skip and take: a negative skip is refused, no take reads to the end, a negative take counts from the end |
| Export.OtherRangesReadAll | app/api/export/farmers/route.ts:35-48 | a range other than CURRENT_PAGE and CUSTOM_RANGE reads every row |
| Export.DefaultPageSize | app/api/export/farmers/route.ts:39-40 | a missing or zero limit means 10 rows a page |
| Export.NegativeTakeReadsTail | app/api/export/farmers/route.ts:43-48 | a negative take −n from skip 0 reads the last n rows |
| Export.ReversedPrefix | app/api/export/farmers/route.ts:46-48 | reversing the first n of the reversed list gives the last n rows |
| Export.WindowIsItsPages | app/api/export/farmers/route.ts:42-43 | a window of count·size rows is `count` consecutive pages of `size` |
| Export.CustomRangeReadsPages | app/api/export/farmers/route.ts:41-48 | CUSTOM_RANGE from page p to q reads pages p..q one after the other |
| Export.CurrentPageIsListedPage | app/api/export/farmers/route.ts:38-57 | a CURRENT_PAGE export reads the same farmers in the same order as the unfiltered listing page |
| Export.UnfilteredSelectsAll | app/api/farmers/route.ts:267-280 | a query without search, state or district selects the whole table in order |
| Export.FieldColumns | app/api/export/farmers/route.ts:67-97 | one entry per field in order; entry i has field i's values and the link signed for `land-doc/<name>` for 604800 s |
| Export.RowHasColumns | app/api/export/farmers/route.ts:69-102 | a row has the 22 columns in the handler's order |
| Export.RowFieldsAligned | app/api/export/farmers/route.ts:92-97 | the Fields column has the farmer's field count, and entry i uses field i's signed land-doc link |
| Export.RowProfileLink | app/api/export/farmers/route.ts:62-83 | the profile link signs `profile-pic/<name>` for 604800 s, or `profile-pic/undefined` without a documents row |
| Export.Row | app/api/export/farmers/route.ts:69-102 | one farmer's export row, column by column; RowHasColumns, RowFieldsAligned and RowProfileLink state its shape |
| Export.RowOf | app/api/export/farmers/route.ts:59-104 | a farmer's row with its creator's and updater's names, none when either user row is missing |
| Export.Flatten | app/api/export/farmers/route.ts:190-196 | the spreadsheet row: BankDetails and Fields serialised, every other column as it is |
| Export.FlattenKeepsOtherColumns | app/api/export/farmers/route.ts:190-196 | flattening keeps every column name and position, replaces BankDetails and Fields by their serialised text, and copies every other cell |
| Export.RowFlatOutsideNested | app/api/export/farmers/route.ts:69-102 | outside BankDetails and Fields a row holds only text, numbers and missing values |
| Export.FlattenedRowIsFlat | app/api/export/farmers/route.ts:190-196 | a flattened row holds nothing nested |
| Export.Rows | app/api/export/farmers/route.ts:59-104 | one row per farmer read, in order; rows exist iff every farmer's creator and updater are found |
| Export.ExportFileNameIsPdfIff | app/api/export/farmers/route.ts:109-199 | the name is `exports/farmers_<ts>.pdf` iff the format is PDF, otherwise it ends in `.xlsx` |
| Export.ExportFileName | app/api/export/farmers/route.ts:187-199 | `exports/farmers_<ts>.pdf` or `.xlsx`; ExportFileNameIsPdfIff states which |
| Export.ExportFarmers | app/api/export/farmers/route.ts:15-213 | a missing or inactive caller gets "Account is disabled", before the role check's "Only admins can export data". An active ADMIN gets an export iff the options are present, the range gives a window, the store reads it and every row's creator and updater exist; otherwise the 500 failure. The count is the rows read; the content is those farmers' rows in order for a PDF, each row flattened for a spreadsheet. The name is the export file name, and the link is signed for 86400 s |
| Users.StaffListing | app/api/users/route.ts:48-59 | the listing holds exactly the STAFF rows' selected columns |
| Users.UserTable.constructor | app/api/users/route.ts:18-24 | a table with unique emails and ids below the next id is valid |
| Users.UserTable.Create | app/api/users/route.ts:6-41 | a non-ADMIN gets 403 before the body is read, and a missing field gets 400. A taken email gets 400 "Email already exists" with the table unchanged. Otherwise one STAFF row storing hash(password) is appended and the answer omits the password |
| Users.UserTable.List | app/api/users/route.ts:42-69 | only an ADMIN gets a listing; it is exactly the STAFF rows, a permutation of them, sorted by createdAt ascending |
| LocationData.GetDistricts | lib/utils/locationData.ts:6-10 | no longer than the data; every result belongs to a record of the state (ignoring case) and every such record's district is in the result |
| LocationData.GetDistrictsKeepsOrder | lib/utils/locationData.ts:7-9 | the result is a subsequence of the districts in data order |
| LocationData.GetDistrictsIgnoresCase | lib/utils/locationData.ts:8 | getDistricts(s) = getDistricts(lower(s)) |
| AuthStore.AuthState.constructor | lib/utils/authStore.ts:28-30 | the store starts with no user, not authenticated, not hydrated |
| AuthStore.AuthState.SetUser | lib/utils/authStore.ts:31 | setUser changes only the user |
| AuthStore.AuthState.SetIsAuthenticated | lib/utils/authStore.ts:32 | setIsAuthenticated changes only isAuthenticated |
| AuthStore.AuthState.Logout | lib/utils/authStore.ts:33 | logout clears the user and isAuthenticated and keeps hydrated |
| AuthStore.AuthState.SetHydrated | lib/utils/authStore.ts:34 | setHydrated changes only hydrated |
| AuthStore.AuthState.OnRehydrated | lib/utils/authStore.ts:41-43 | after rehydration with a state, hydrated is true; nothing else changes |
| AuthStore.LogoutIsIdempotent | lib/utils/authStore.ts:33 | logging out twice leaves the store as logging out once |

## Left out

- The `Promise.all` fan-outs run sequentially. Concurrent uploads and signings, and their interleaving with the clock, are not modelled. Each upload carries its own clock reading.
- Survey-number uniqueness is checked against the table as it is when the number is drawn. The race between that check and the insert is not modelled.
- `generateSurveyNumber` loops until it finds a free number. The model draws from a finite supplied sequence, so `Create` requires that some draw gives a free number.
- JSON: `JSON.parse` of the `fields` part, of the session cookie and of locations, and `JSON.stringify` of export cells, are not modelled as text. A syntax error is an input, the cookie is parsed or not, and the serialiser is a parameter.
- A `fields` form part that is missing and so parses `null`, and form values that are not files, are not modelled.
- CreateIssues: a missing text form part cannot be expressed, because the text fields are strings. In the source `formData.get` answers null and zod reports "Expected string, received null" with 400.
- CreateIssues: zod's `.min` and `.length` count UTF-16 code units, while the model counts characters, so lengths differ for text outside the Basic Multilingual Plane.
- Persist: the field rows are built with the corrected location column (`FieldRecords`), so Persist, Create and NewFarmerRecorded describe the handler with line 142 fixed. As written, every validated create whose uploads succeed answers 500 (see Findings).
- Zod's own messages for type and enum failures are abbreviated to the ones the model states. Only the messages the schema writes itself are exact.
- `toLowerCase` is modelled on the ASCII letters only. Other Unicode case mappings are not modelled.
- `orderBy: createdAt` is a stable insertion sort. The store does not promise any order among equal timestamps.
- `parseInt` is modelled on digit strings only (`ReadQuery`); a sign, leading blanks or trailing text are not. ListFarmers takes page ≥ 1 and limit ≥ 1: a page of 0 (a negative skip) or a limit of 0 (an infinite page count) is not modelled. The age and the user id are integers already. A NaN page bound in an export is the failure "NaN".
- Prisma's documented reading of a negative `take`, from the end of the list, is modelled as a reversed window.
- Floating point is not modelled: areas, yields and coordinates are reals, and the schema's bounds are checked on them.
- Dates: `new Date(...)`, `toISOString` and `toLocaleString` are parameters or plain values.
- PDF layout and XLSX encoding are not modelled. The export's content is its rows, flattened for a spreadsheet.
- The result of uploading the export file to the bucket is not checked, as in the handler.
- `createSignedUrl` is the parameter `sign`. A signing failure is a missing link.
- The session cookie is not signed in the source, and its attributes (httpOnly, sameSite, secure) are not modelled.
- SHA-256 is an uninterpreted parameter `hash`.
- Logging, zustand's `persist` and localStorage are not modelled.
- Prisma query plumbing and `$transaction` are not modelled. The tables are in-memory sequences.
- Object-prototype keys such as `toString` that a JavaScript object would inherit are not modelled.

## Findings

| source | as written | input that shows it | evidently intended | confidence | as-written member | corrected member |
|---|---|---|---|---|---|---|
| app/api/farmers/route.ts:142 | `location: JSON.parse(field.location)` is applied to the location object the schema already parsed. `JSON.parse` reads its string form "[object Object]" and throws a SyntaxError at 'o', which the catch block answers 500, after every document was uploaded | any payload that passes `CreateFarmerSchema`, since it has at least one field | store the validated location as it is | not executed | FarmersRoute.ValidatedCreateFailsAsWritten | FarmersRoute.FieldRecords |
