# Achievement verification backend — a Dafny model

The system is the backend of a student achievement portal. A student records an
achievement. The record is a flexible document in a document store plus a
relational *reference* that carries its status. The student edits the draft,
attaches files to it and submits it. The lecturer who advises the student then
verifies or rejects it. A draft can also be deleted: the document is
tombstoned and the reference is marked deleted. Administrators list every
achievement, and anyone signed in can ask for statistics over the students in
their scope. Beside that workflow sit these parts:

- sign-in and sign-out, with a revocation list for signed-out tokens;
- a permission gate in front of every protected route;
- an in-memory cache of status timelines;
- user administration: accounts, student and lecturer profiles, advisor
  assignment and the paginated listings.

The model captures all of this in the following modules:

- `Wrappers`, `Identifiers`, `Records`: record types and identifiers. The
  module also covers hex encoding and parsing of document ids.
- `Sql`: a statement is a sequence of text and placeholder fragments plus its
  arguments. The module defines what "well numbered" means: the placeholders
  are exactly `$1..$k` in order, where `k` is the number of arguments.
- `Pagination`: normalising page and limit, the page count and the offset.
- `AchievementQueries`: the imperative statement builders of the achievement
  store, each proved equal to a declarative statement function whose
  numbering is proved.
- `AchievementRepository`: the achievement store as a class over maps. It
  also holds an abstract answer table for multi-row and aggregate queries,
  the scan loops and the type and level tallies.
- `AchievementLifecycle`: the status machine, the guard chains and the read
  access rules.
- `AchievementService`: the service operations as methods on the store, each
  stating its whole new state on every path.
- `TokenBlacklist`, `AchievementHistory`: the two in-memory managers as
  classes.
- `Auth`, `AuthMiddleware`: sign-in, sign-out, header parsing, the status
  tables and the permission gate.
- `UserRepository`, `UserService`: the user store, the UPDATE builder with
  its one-character placeholders, and the user administration service.

These are parameters of the model:

- the clock (`now`);
- fresh ids;
- the password hash and the hash check;
- the token signer and validator;
- the expiry read from a token;
- the case-insensitive comparison.

A store write that fails is named in the store's `failing` set. Every
multi-row or aggregate SELECT is answered by the abstract table `db`, keyed by
the statement. SQL semantics are therefore not modelled, only the structure of
the statements.

The source's comments cite the project's software requirements specification
("SRS", for example at app/service/achievement_service.go:115). Where those
requirements and the code disagree, the model follows the code:

- `GetAchievementByID` does not let administrators read a document, although
  the access table of the requirements says they may.
- No service calls `LogAchievementStatusChange`, so no transition appends to
  the status log, although the requirements describe one.
- A limit outside `[1, 100]` is reset to 10, not clamped to 100.
- Two request definitions exist for user creation and update. The service
  compiles only against the one in `model/Postgresql/Users.go`, which has profile
  type, profile data and an optional active flag, so the model uses that one.

## Model

| member | source | states |
|---|---|---|
| Identifiers.Hex | repository/achievement_repository.go:87 | the hex text of a document id is two lower-case digits per byte, so its length is twice the byte count |
| Identifiers.DecodeHexOfHex | repository/achievement_repository.go:293-296 | decoding the hex text of any byte string gives the bytes back |
| Identifiers.DecodeHexSucceeds | repository/achievement_repository.go:293-296 | hex decoding succeeds exactly on even-length text made only of hex digits |
| Identifiers.ObjectIdRoundTrip | repository/achievement_repository.go:87 | the id text the store returns for an inserted document parses back to that document's id |
| Identifiers.ObjectIdFromHexSucceeds | repository/achievement_repository.go:145-148 | parsing a document id succeeds exactly on 24 hex digits |
| Sql.NumberedParams | repository/achievement_repository.go:239-248 | k present filters take the consecutive placeholders first..first+k-1 |
| Sql.NumberedShape | repository/achievement_repository.go:419-449 | every present filter's clause occurs in the text, followed by its own placeholder and nothing in between |
| Sql.ComposedWellNumbered | repository/achievement_repository.go:221-260 | a head numbered 1..h, then k filters, then a tail numbered after them, gives a statement whose placeholders are exactly 1..len(args) |
| Sql.DecimalRoundTrip | repository/achievement_repository.go:244-245 | the `%d` placeholder text denotes exactly the index it was built from |
| Pagination.NormalizePage | app/service/achievement_service.go:407-409 | a page below 1 becomes 1; any other page is kept |
| Pagination.NormalizeLimit | app/service/achievement_service.go:410-412 | a limit outside [1, 100] becomes 10 (reset, not clamped); one inside is kept |
| Pagination.TotalPagesIsCeiling | app/service/achievement_service.go:455 | `(total + limit - 1) / limit` is the fewest pages of `limit` rows that hold `total` rows, and it is 0 exactly for no rows |
| Pagination.OffsetWithinTotal | repository/achievement_repository.go:259 | every page from 1 to the page count starts at an existing row: `0 <= (page-1)*limit < total` |
| Pagination.Metadata | service/user_service.go:195-205 | the listing metadata echoes page, limit and total, and its page count is the ceiling of total / limit, and 0 exactly for an empty listing |
| Pagination.TwentyFiveRowsMakeThreePages | service/user_service.go:195 | a worked example, not a general property: 25 rows at 10 per page make 3 pages, and a limit of 500 falls back to 10 |
| AchievementQueries.FilterClausesDiffer | repository/achievement_repository.go:424-446 | the status, from-date and to-date clauses are distinct texts, so a clause in the statement identifies its filter |
| AchievementQueries.AddListFilter | repository/achievement_repository.go:243-248 | one filter block appends the same clause and placeholder `$argCount` to both the row and the count query, one argument, and advances `argCount` by one, or changes nothing when the filter is absent |
| AchievementQueries.AddFilter | repository/achievement_repository.go:518-534 | the single-query version of the filter block: text, arguments and counter advance together |
| AchievementQueries.StudentInfoStatementsAreWellNumbered | repository/achievement_repository.go:221-260 | both statements of the advisee listing are well numbered; the count query binds the ids and the status only, and the row query adds LIMIT and OFFSET `(page-1)*limit` |
| AchievementQueries.StudentInfoStatusClause | repository/achievement_repository.go:243-248 | both statements carry the status clause exactly when a status is given |
| AchievementQueries.BuildStudentInfoStatements | repository/achievement_repository.go:215-260 | the `+=` assembly with `argCount` starting at 2 builds exactly the declarative statements |
| AchievementQueries.SortColumn | repository/achievement_repository.go:459-469 | the sort column is always whitelisted: "created_at", "updated_at" or "status" map to their `ar.` columns, anything else to `ar.created_at` |
| AchievementQueries.SortDirection | repository/achievement_repository.go:471-474 | the order is ASC exactly for "asc" and DESC otherwise |
| AchievementQueries.AdminStatementsAreWellNumbered | repository/achievement_repository.go:419-481 | both admin statements are well numbered, with status, student, from and to filters in that order, and LIMIT/OFFSET take the next two indices with offset `(page-1)*limit` |
| AchievementQueries.ChooseOrdering | repository/achievement_repository.go:459-474 | the imperative choice of sort column and direction agrees with the whitelist functions |
| AchievementQueries.AdminArgumentCount | repository/achievement_repository.go:419-449 | each present admin filter binds exactly one argument of the count query |
| AchievementQueries.BuildAdminStatements | repository/achievement_repository.go:398-481 | the admin assembly builds exactly the declarative statements |
| AchievementQueries.StatisticsPredicatesPresence | repository/achievement_repository.go:513-534 | the status clause is present exactly when the query applies status and a status is given; each date clause is present exactly when its date is given |
| AchievementQueries.StatisticsStatementIsWellNumbered | repository/achievement_repository.go:513-540 | a statistics statement is well numbered whatever head, prefix, status choice and tail it is built with: the id list is `$1` and the present filters follow in order |
| AchievementQueries.StatisticsStatementsAreWellNumbered | repository/achievement_repository.go:513-540 | the total, document-id, period and status-distribution statements are well numbered |
| AchievementQueries.TopStudentsStatementIsWellNumbered | repository/achievement_repository.go:659-693 | the top-students statement binds its row limit after the filters and is well numbered |
| AchievementQueries.StatusDistributionIgnoresStatus | repository/achievement_repository.go:785-808 | the status-distribution statement is the same whatever status filter is given |
| AchievementQueries.AppendStatisticsFilters | repository/achievement_repository.go:546-564 | the three optional statistics filters append clause, placeholder and argument in order from `$2` |
| AchievementQueries.BuildStatisticsStatement | repository/achievement_repository.go:609-638 | each statistics assembly builds exactly its declarative statement |
| AchievementQueries.BuildTopStudentsStatement | repository/achievement_repository.go:659-693 | the top-students assembly builds exactly its declarative statement |
| AchievementQueries.StudentAchievementRowsAreWellNumbered | repository/achievement_repository.go:920-930 | one student's row query is well numbered, excludes deleted references and pages with offset `(page-1)*limit` |
| AchievementQueries.StudentAchievementCountIsWellNumbered | repository/achievement_repository.go:913 | one student's count query is well numbered and excludes deleted references |
| AchievementQueries.AdviseeIdsStatementIsWellNumbered | repository/achievement_repository.go:189-192 | the advisee id query binds the advisor as `$1` |
| AchievementQueries.StatusHistoryStatementIsWellNumbered | repository/achievement_repository.go:349-359 | the status history query binds the achievement as `$1` |
| AchievementQueries.AllStudentIdsStatementIsWellNumbered | app/service/achievement_service.go:58-60 | the all-students id query has no placeholders and no arguments |
| AchievementRepository.ScanAll | repository/achievement_repository.go:270-283 | a read succeeds exactly when every row scans, gives the scanned values in row order, and fails with the scan error otherwise |
| AchievementRepository.ScanRows | repository/achievement_repository.go:366-381 | the `rows.Next()` loop computes exactly `ScanAll` |
| AchievementRepository.CountOf | repository/achievement_repository.go:536-538 | a count query succeeds exactly on one count row and gives its count |
| AchievementRepository.CollectIds | repository/achievement_repository.go:573-584 | reference rows that do not scan or do not parse as a document id are skipped, so at most one id per row is collected |
| AchievementRepository.CollectedIdsComeFromRows | repository/achievement_repository.go:573-584 | every collected id is the parse of the text of some row |
| AchievementRepository.Found | repository/achievement_repository.go:586-594 | the documents the ids find, in order; an id whose fetch fails is skipped |
| AchievementRepository.TypesOf | repository/achievement_repository.go:586-594 | one type per fetched document, at the same position |
| AchievementRepository.TypeTallyCountsFoundDocuments | repository/achievement_repository.go:586-594 | the type tally counts each fetched document once, under its own type |
| AchievementRepository.TypeTallyTotal | repository/achievement_repository.go:573-605 | the type counts add up to the number of documents found, which is at most the number of reference rows |
| AchievementRepository.LevelTallyWithinTypeTally | repository/achievement_repository.go:760-770 | documents without a competition level are not counted by level, so the level counts are within the type counts |
| AchievementRepository.QueryIn | repository/achievement_repository.go:189-213 | running a multi-row query gives the answer table's rows, scanned |
| AchievementRepository.ListingIn | repository/achievement_repository.go:250-290 | a listing succeeds exactly when the count and the rows both succeed, and then gives the scanned rows with the counted total; a failed count is reported first |
| AchievementRepository.RunListingIn | repository/achievement_repository.go:250-290 | the count-then-rows execution computes exactly `ListingIn` |
| AchievementRepository.Repository.GetStudentByUserID | repository/achievement_repository.go:65-79 | a student is found by its account exactly when one is recorded for it |
| AchievementRepository.Repository.GetLecturerByUserID | repository/achievement_repository.go:174-187 | a lecturer is found by its account exactly when one is recorded for it |
| AchievementRepository.Repository.GetStudentByID | repository/achievement_repository.go:321-335 | a student is found by its id exactly when recorded |
| AchievementRepository.Repository.GetAdvisorIDByStudentID | repository/achievement_repository.go:132-142 | the advisor of a recorded student, an error otherwise |
| AchievementRepository.Repository.GetAchievementReferenceByID | repository/achievement_repository.go:103-119 | a reference is found exactly when recorded |
| AchievementRepository.Repository.GetAchievementDetailFromMongo | repository/achievement_repository.go:292-308 | the id text is parsed first (a bad id is an error); the document is found whether or not it is tombstoned |
| AchievementRepository.Repository.GetStudentIDsByAdvisorID | repository/achievement_repository.go:189-213 | the advisee ids are the scanned rows of the advisee id query |
| AchievementRepository.Repository.GetAllStudentIDs | app/service/achievement_service.go:58-60 | every student id, as the scanned rows of the all-students query |
| AchievementRepository.Repository.GetAchievementStatusHistory | repository/achievement_repository.go:348-384 | the status log rows of one achievement, oldest first, scanned |
| AchievementRepository.Repository.Listing | repository/achievement_repository.go:250-289 | a listing of the store succeeds exactly when its count query and its row query both succeed, and then pairs the scanned rows with the counted total |
| AchievementRepository.Repository.RunListing | repository/achievement_repository.go:250-289 | the count-then-rows execution on the store gives exactly `Listing` |
| AchievementRepository.Repository.StudentInfoListing | repository/achievement_repository.go:215-290 | no students gives no rows and total 0 without any query; otherwise the listing of the advisee statements |
| AchievementRepository.Repository.GetAchievementsWithStudentInfo | repository/achievement_repository.go:215-290 | the early return for an empty id set and the statement assembly compute exactly `StudentInfoListing` |
| AchievementRepository.Repository.GetAllAchievementsForAdmin | repository/achievement_repository.go:398-511 | the admin listing is the listing of the admin statements |
| AchievementRepository.Repository.GetStudentAchievements | repository/achievement_repository.go:910-956 | one student's listing, deleted references excluded |
| AchievementRepository.Repository.GetTotalAchievements | repository/achievement_repository.go:513-540 | the total is the count of the total statement |
| AchievementRepository.Repository.GetStatisticsByPeriod | repository/achievement_repository.go:609-657 | the period rows of the period statement, scanned |
| AchievementRepository.Repository.GetTopStudents | repository/achievement_repository.go:659-713 | the top-student rows of the top-students statement, scanned |
| AchievementRepository.Repository.GetStatusDistribution | repository/achievement_repository.go:785-827 | the status rows of the status-distribution statement, which has only the date filters |
| AchievementRepository.Repository.CollectDocumentIds | repository/achievement_repository.go:542-584 | the ids collected from the matching reference rows, or the query error |
| AchievementRepository.Repository.GetStatisticsByType | repository/achievement_repository.go:542-607 | the type tally over the documents the collected ids find in the collection passed as an argument, not the repository's own |
| AchievementRepository.Repository.CountTypes | repository/achievement_repository.go:586-594 | the counting loop adds exactly the type tally of the documents found in the passed collection |
| AchievementRepository.Repository.GetLevelDistribution | repository/achievement_repository.go:715-783 | the level tally over the documents found in the passed collection that have a level |
| AchievementRepository.Repository.CountLevels | repository/achievement_repository.go:760-770 | the counting loop adds exactly the level tally over the passed collection |
| AchievementRepository.Repository.SaveAchievementMongo | repository/achievement_repository.go:81-89 | an insert stores the document under its id and returns the id's hex text; a taken id or a failing insert writes nothing |
| AchievementRepository.Repository.SaveAchievementReference | repository/achievement_repository.go:91-101 | an insert stores only id, student, document id, status and the two timestamps; a taken id or a failing insert writes nothing |
| AchievementRepository.Repository.UpdateAchievementStatusToSubmitted | repository/achievement_repository.go:121-130 | the status becomes submitted with submission and update instants; no other field or record changes |
| AchievementRepository.Repository.UpdateAchievementReferenceToDeleted | repository/achievement_repository.go:163-172 | the status becomes deleted and the update time becomes now; nothing else changes |
| AchievementRepository.Repository.UpdateAchievementStatusToVerified | repository/achievement_repository.go:310-319 | the status becomes verified, recording the lecturer and the instant |
| AchievementRepository.Repository.UpdateAchievementStatusToRejected | repository/achievement_repository.go:337-346 | the status becomes rejected, recording the note |
| AchievementRepository.Repository.UpdateAchievementTimestamp | repository/achievement_repository.go:838-843 | only the update instant of the reference changes |
| AchievementRepository.Repository.SoftDeleteAchievementMongo | repository/achievement_repository.go:144-161 | a bad id is refused first; otherwise the document is stamped deleted, and a missing document is not an error |
| AchievementRepository.Repository.UpdateAchievementInMongo | repository/achievement_repository.go:829-836 | the whole document with the same id is replaced |
| AchievementRepository.Repository.AddAttachmentToAchievement | repository/achievement_repository.go:861-883 | a non-hex id is refused before any update; otherwise exactly one attachment with the given name, URL, type and instant is appended |
| AchievementRepository.Repository.LogAchievementStatusChange | repository/achievement_repository.go:386-396 | appends one status log entry; no service calls it |
| AchievementLifecycle.Next | app/service/achievement_service.go:199-201 | edit needs draft, submit and delete need draft, verify and reject need submitted, attach needs draft or rejected; edit and attach keep the status |
| AchievementLifecycle.FinalStatuses | app/service/achievement_service.go:251-256 | nothing is allowed after verified or deleted |
| AchievementLifecycle.RejectedStaysRejected | app/service/achievement_service.go:1210-1212 | from rejected only attachments are allowed, and the status stays rejected |
| AchievementLifecycle.DraftKeepingRun | app/service/achievement_service.go:199-220 | a draft stays a draft along any run of edits and attachments |
| AchievementLifecycle.RunStaysDraft | app/service/achievement_service.go:199-220 | the allowed runs from a draft that leave it a draft are exactly the runs of edits and attachments |
| AchievementLifecycle.SubmittedNeverReturnsToDraft | app/service/achievement_service.go:324-340 | no run leads from submitted back to draft |
| AchievementLifecycle.VerifiedOnlyThroughSubmission | app/service/achievement_service.go:251-340 | a draft becomes verified exactly along edits and attachments, then one submission, then one verification |
| AchievementLifecycle.SubmittedToVerified | app/service/achievement_service.go:324-340 | from submitted, verified is reached exactly by one verification |
| AchievementLifecycle.OwnerGuard | app/service/achievement_service.go:182-201 | the student's guard order is student record, then reference, then ownership, then status, each with its own error; it passes exactly when all hold |
| AchievementLifecycle.AdvisorGuard | app/service/achievement_service.go:312-337 | the lecturer's guard order is lecturer record, then reference, then status, then student, then advisorship; it passes exactly when all hold |
| AchievementLifecycle.RejectGuard | app/service/achievement_service.go:355-387 | an empty note is refused before any lookup; otherwise the advisor guard decides |
| AchievementLifecycle.OnlyTheAdvisorDecides | app/service/achievement_service.go:323-337 | a passing lecturer guard means the caller advises the owner, and for a decision the status was submitted |
| AchievementLifecycle.ViewAllowsHistory | app/service/achievement_service.go:469-496 | whoever may view a document may read its history |
| AchievementLifecycle.HistoryIsOwnerOrAdvisor | app/service/achievement_service.go:478-496 | history access holds exactly for the owning student or the owner's advisor |
| AchievementLifecycle.NoRecordNoAccess | app/service/achievement_service.go:149-170 | a caller with neither a student nor a lecturer record, an administrator for instance, may neither view nor read history |
| AchievementLifecycle.HistoryWiderThanView | app/service/achievement_service.go:149-170 | a worked example, not a general property: an account that is a student and also the lecturer advising the owner may read the history but not view the document, because the student check decides the view first |
| AchievementService.NewDocument | service/achievement_service.go:35-42 | the stored document is linked to the student, stamped with the instant, with custom fields present even when the request had none |
| AchievementService.NewReference | service/achievement_service.go:52-59 | a new reference is a draft of the student pointing at the stored document, with no submission, verification or note |
| AchievementService.Service.SubmitPrestasi | app/service/achievement_service.go:91-132 | without a student record nothing is written; a failed document insert writes nothing; a failed reference insert leaves the document; success stores both, and the reference is a draft whose document id parses back to the document; the older copy of this path at service/achievement_service.go lines 27-67 is the same code |
| AchievementService.Service.UpdateAchievement | app/service/achievement_service.go:180-229 | a failing guard or bad document id writes nothing; otherwise the stored document is replaced by the request, given the stored id and the instant as update time, and then the reference's update instant is set; a failed second write leaves the first; the status never changes |
| AchievementService.Service.SubmitForVerification | app/service/achievement_service.go:232-268 | a failing guard writes nothing; otherwise only the reference moves from draft to submitted |
| AchievementService.Service.DeleteDraftAchievement | app/service/achievement_service.go:271-307 | a failing guard writes nothing; the document is tombstoned first, then the reference is marked deleted; a failed second write leaves the first |
| AchievementService.Service.UploadAttachment | app/service/achievement_service.go:1191-1222 | attachments go on drafts and rejected achievements only; the status is never changed |
| AchievementService.Service.VerifyAchievement | app/service/achievement_service.go:310-352 | only the advising lecturer verifies a submitted achievement, recorded as the verifier; any failure writes nothing |
| AchievementService.Service.RejectAchievement | app/service/achievement_service.go:355-402 | an empty note is refused first; only the advising lecturer rejects a submitted achievement, and the note is stored |
| AchievementService.Service.GetAchievementByID | app/service/achievement_service.go:135-177 | the caller is tried as a student first and must own the document; otherwise as a lecturer who must advise the owner; anyone else is refused |
| AchievementService.Service.GetAchievementHistory | app/service/achievement_service.go:469-509 | the timeline is returned exactly to the owner or the owner's advisor |
| AchievementService.Service.Detailed | app/service/achievement_service.go:446-452 | a listed achievement gets its document when the fetch succeeds and keeps empty details otherwise |
| AchievementService.Service.FillDetails | app/service/achievement_service.go:446-452 | the details loop keeps every row and its order, and a failed fetch does not fail the listing |
| AchievementService.Service.GetStudentAchievements | app/service/achievement_service.go:405-466 | only a lecturer lists; no advisees gives total 0 without a listing query; otherwise the advisees' achievements with details and ceiling page metadata of the normalised page and limit |
| AchievementService.Service.GetAllAchievementsForAdmin | app/service/achievement_service.go:512-548 | the admin listing with details and the metadata of the normalised page and limit |
| AchievementService.Service.ResolveScope | app/service/achievement_service.go:552-581 | the statistics scope is computed student first, then lecturer, then the filter's student, then every student |
| AchievementService.Service.Statistics | app/service/achievement_service.go:583-634 | an empty scope gives empty statistics without further queries; by type and by level are always empty |
| AchievementService.Service.GetAchievementStatistics | app/service/achievement_service.go:551-634 | the execution computes exactly `Statistics`; a failed secondary list is shown empty, a failed total fails the call |
| AchievementService.Service.FilterStudentOnlyScopesAdministrators | app/service/achievement_service.go:556-579 | the filter's student changes nothing for a student or a lecturer |
| AchievementService.Service.StatusShown | app/service/achievement_service.go:583-624 | successful statistics have a scope, and show as status distribution the status query's answer over it, empty when it fails or when the scope is empty |
| AchievementService.Service.StatusDistributionIgnoresStatusFilter | repository/achievement_repository.go:785-808 | the status distribution shown does not depend on the status filter |
| TokenBlacklist.Pruned | utils/token_blacklist.go:77-87 | a sweep keeps exactly the entries not expired at that instant, with their expiries |
| TokenBlacklist.PruningKeepsAnswers | utils/token_blacklist.go:77-87 | a sweep does not change the answer of any later lookup |
| TokenBlacklist.DroppingExpiredKeepsAnswers | utils/token_blacklist.go:50-53 | dropping an expired entry does not change the answer at that instant or later |
| TokenBlacklist.RevokedAtExpiry | utils/token_blacklist.go:49-56 | a token counts as revoked at the very instant it expires and not one tick later |
| TokenBlacklist.AddSize | utils/token_blacklist.go:33-37 | re-adding a token overwrites its expiry and never grows the list |
| TokenBlacklist.TokenBlacklistManager.constructor | utils/token_blacklist.go:26-30 | a new list is empty |
| TokenBlacklist.TokenBlacklistManager.AddToken | utils/token_blacklist.go:33-37 | the token gets the given expiry, other entries are unchanged, and the size grows only for a new token |
| TokenBlacklist.TokenBlacklistManager.IsBlacklisted | utils/token_blacklist.go:40-57 | the answer is true exactly for a present token not yet expired; an expired entry is removed and nothing else changes |
| TokenBlacklist.TokenBlacklistManager.RemoveToken | utils/token_blacklist.go:60-64 | exactly that token is removed |
| TokenBlacklist.TokenBlacklistManager.Cleanup | utils/token_blacklist.go:77-87 | exactly the entries expired at `now` are removed and the rest keep their expiries |
| TokenBlacklist.TokenBlacklistManager.GetBlacklistSize | utils/token_blacklist.go:90-94 | the size is the number of distinct tokens, 0 exactly for the empty list |
| AchievementHistory.TotalWithout | utils/achievement_history.go:69-78 | the total separates at any achievement: its timeline's length plus the total of the rest |
| AchievementHistory.AppendRaisesTotal | utils/achievement_history.go:33-42 | one appended entry raises the total by exactly one |
| AchievementHistory.ClearLowersTotal | utils/achievement_history.go:61-66 | clearing an achievement lowers the total by the length of its timeline |
| AchievementHistory.AchievementHistoryManager.constructor | utils/achievement_history.go:26-30 | a new cache is empty, total 0 |
| AchievementHistory.AchievementHistoryManager.AddEntry | utils/achievement_history.go:33-42 | the entry goes at the end of its achievement's timeline, other timelines are unchanged, and the total rises by one |
| AchievementHistory.AchievementHistoryManager.GetHistory | utils/achievement_history.go:45-58 | a fresh array equal to the timeline in insertion order, empty for an unknown achievement |
| AchievementHistory.AchievementHistoryManager.ClearHistory | utils/achievement_history.go:61-66 | only that achievement is removed, its timeline reads empty, and the total drops by its length |
| AchievementHistory.AchievementHistoryManager.GetTotalEntries | utils/achievement_history.go:69-78 | the accumulator loop gives the sum of all timeline lengths |
| Auth.LoginIdentifier | service/auth_service.go:61-68 | the identifier is the user name, or the e-mail when no user name is given; it is empty exactly when both are |
| Auth.Login | service/auth_service.go:60-105 | no identifier, unknown account, wrong password, inactive account, missing permissions and a failed signature each give their own error in that order; success carries the token, an empty refresh token, the account's id, name and full name, the role name and the permissions, and only for an active account whose password matched |
| Auth.Logout | service/auth_service.go:107-117 | an unreadable expiry is an error and leaves the list unchanged; otherwise the token is revoked until its expiry |
| Auth.BearerToken | service/auth_service.go:155-167 | an empty header, one shorter than 7, one not starting with the exact text "Bearer " and one with nothing after it are refused; otherwise the token is the text after the prefix |
| Auth.BearerRoundTrip | service/auth_service.go:160-167 | any non-empty token after "Bearer " is the token signed out |
| Auth.LogoutEndpoint | service/auth_service.go:154-178 | a bad header is 401 with no change, an unreadable expiry 500 with no change, and success 200 with the token revoked |
| Auth.LoginStatus | service/auth_service.go:128-152 | unknown account and wrong password are 401, an inactive account is 403, any other error 500, success 200 |
| Auth.MissingIdentifierIsServerError | service/auth_service.go:136-145 | a worked example, not a general property: a request without user name and e-mail is answered 500 |
| AuthMiddleware.HasPermission | middleware/auth_middleware.go:39-47 | the search finds the permission exactly when some string element of the claim equals it ignoring case; other elements are skipped |
| AuthMiddleware.Rbac | middleware/auth_middleware.go:11-54 | a missing header, an empty token and a failed validation are 401 with nothing stored; the claims are stored before any permission check; no required permission passes; a claim that is not a list is 403; otherwise the request passes exactly when the claim grants the permission and is 403 naming it when not |
| AuthMiddleware.GrantsSurvivesExtension | middleware/auth_middleware.go:39-47 | granting does not depend on where the permission sits in the claim or on what else it holds |
| UserRepository.Assignments | repository/user_repository.go:137-152 | the SET clause has at most three optional columns |
| UserRepository.AssignmentsFollowTheRequest | repository/user_repository.go:137-152 | e-mail is set exactly when given, full name exactly when given and the active flag exactly when given, each with its value and in that order |
| UserRepository.SetListParams | repository/user_repository.go:137-152 | the k optional columns take placeholders first..first+k-1 |
| UserRepository.UpdateStatementIsWellNumbered | repository/user_repository.go:133-156 | the UPDATE is well numbered: the chosen values take $1..$k, `updated_at` takes $(k+1), the id $(k+2), and the arguments are the values, the instant and the id |
| UserRepository.UpdateUserPlaceholdersBelowSix | repository/user_repository.go:138-155 | every placeholder of the user UPDATE lies in 1..5 |
| UserRepository.RuneText | repository/user_repository.go:138 | `rune(argCount+'0')` is a single character |
| UserRepository.RuneTextIsDecimal | repository/user_repository.go:138 | for 0..9 that character is the decimal text of the index |
| UserRepository.RuneTextIsNotDecimalFromTen | repository/user_repository.go:138 | from ten on it is not, so the encoding is right only because the index stays below six |
| UserRepository.AppendColumn | repository/user_repository.go:137-153 | one optional column, when given, appends `column = $n, ` with its value and advances the counter; when not given nothing changes; the builder's text stays the rendering of the columns so far |
| UserRepository.AppendTail | repository/user_repository.go:155-156 | the closing `updated_at = $n WHERE id = $n+1` with the instant and the id completes the text and arguments of the request's UPDATE statement |
| UserRepository.BuildUpdateUser | repository/user_repository.go:132-160 | the step-by-step query and arguments are exactly the rendering of the well-numbered UPDATE statement |
| UserRepository.AssignAllAppend | repository/user_repository.go:137-152 | applying two lists of assignments is applying them one after the other |
| UserRepository.UpdatedChangesOnlyTheGivenColumns | repository/user_repository.go:132-160 | the updated row takes each given column's value, the instant as update time, and keeps id, user name, hash, role and creation time |
| UserRepository.ExecutedIsUpdated | repository/user_repository.go:132-160 | running the built statement, each SET column taking the argument of its placeholder and updated_at the one after, gives exactly the updated row |
| UserRepository.WholeTableIsWellNumbered | repository/user_repository.go:95-102 | the paginated user, student and lecturer queries bind LIMIT and OFFSET `(page-1)*limit` as $1 and $2, and their counts have no arguments |
| UserRepository.AdviseesStatementsAreWellNumbered | repository/user_repository.go:453-465 | the advisee listing binds the advisor as $1 and LIMIT and OFFSET `(page-1)*limit` as $2 and $3 |
| UserRepository.UsersOf | repository/user_repository.go:111-126 | the users of a scanned page, position by position |
| UserRepository.RoleNamesOf | repository/user_repository.go:111-126 | the role names of a scanned page, position by position |
| UserRepository.ScanAllSucceeds | repository/user_repository.go:111-126 | rows that are all user rows scan, and the scan gives their users and role names |
| UserRepository.UserStore.GetUserByID | repository/user_repository.go:63-82 | an account is found with its role name exactly when it exists and its role exists |
| UserRepository.UserStore.CheckUsernameExists | repository/user_repository.go:207-212 | the answer is whether any account has the user name, or the query error |
| UserRepository.UserStore.CheckEmailExists | repository/user_repository.go:215-220 | the answer is whether any account has the e-mail, or the query error |
| UserRepository.UserStore.GetRoleByID | repository/user_repository.go:223-235 | a role is found exactly when recorded |
| UserRepository.UserStore.GetStudentWithUserByID | repository/user_repository.go:289-311 | a student is found exactly when its account exists and is active, and comes with that student record, the account's user name, full name and e-mail, and the advisor's full name or "" when the advisor or its account is missing (the COALESCE) |
| UserRepository.UserStore.GetStudentByID | repository/user_repository.go:314-329 | a student is found by id exactly when recorded |
| UserRepository.UserStore.GetLecturerByID | repository/user_repository.go:426-440 | a lecturer is found by id exactly when recorded |
| UserRepository.UserStore.CreateUser | repository/user_repository.go:51-60 | the account is inserted under its id; a taken id or a failing insert writes nothing |
| UserRepository.UserStore.UpdateUser | repository/user_repository.go:132-160 | the row is written from the arguments BuildUpdateUser binds, so the UPDATE changes only the given columns and the update time of that account; no matching row is not an error |
| UserRepository.UserStore.UpdateUserRole | repository/user_repository.go:170-174 | only the role and the update time change |
| UserRepository.UserStore.DeleteUser | repository/user_repository.go:163-167 | the soft delete clears the active flag and sets the update time |
| UserRepository.UserStore.CreateStudentProfile | repository/user_repository.go:177-186 | the student is inserted under its id; a taken id or a failing insert writes nothing |
| UserRepository.UserStore.CreateLecturerProfile | repository/user_repository.go:189-197 | the lecturer is inserted under its id; a taken id or a failing insert writes nothing |
| UserRepository.UserStore.UpdateStudentAdvisor | repository/user_repository.go:200-204 | only the student's advisor changes |
| UserRepository.UserStore.AllUsers | repository/user_repository.go:85-129 | a page of users succeeds exactly when count and rows succeed, and the user and role name at each position come from the same row |
| UserRepository.UserStore.GetAllUsers | repository/user_repository.go:85-129 | the scan loop filling users and role names side by side computes exactly `AllUsers` |
| UserRepository.UserStore.GetAllStudents | repository/user_repository.go:240-286 | the student listing of the active-students statements |
| UserRepository.UserStore.GetStudentAchievements | repository/user_repository.go:332-378 | one student's achievements, deleted ones excluded, via the same statements as the achievement store |
| UserRepository.UserStore.GetAllLecturers | repository/user_repository.go:381-423 | the lecturer listing of the active-lecturers statements |
| UserRepository.UserStore.GetStudentsByAdvisorID | repository/user_repository.go:443-489 | the listing of one advisor's active advisees |
| UserRepository.OwnEmailIsTaken | repository/user_repository.go:215-220 | an account's own current e-mail always counts as taken |
| UserService.NewUser | service/user_service.go:105-115 | the new account copies user name, e-mail, full name, role and active flag from the request, with the hash and the instant |
| UserService.ProfileFor | service/user_service.go:123-151 | a profile exists exactly when profile data is given and the type is "student" or "lecturer", and it is linked to the new account with the request's fields |
| UserService.InsertKeepsLoginsUnique | service/user_service.go:76-117 | inserting an account with an unused id, user name and e-mail keeps user names and e-mails unique |
| UserService.UpdateKeepsLoginsUnique | service/user_service.go:216-227 | an update whose new e-mail belongs to nobody keeps user names and e-mails unique |
| UserService.Service.Admission | service/user_service.go:76-102 | the creation checks run user name, then e-mail, then role, then hashing, each with its own error; they pass exactly when the name and e-mail are free, the role exists and hashing succeeded |
| UserService.Service.CreateUser | service/user_service.go:74-154 | a failed check writes nothing; a failed insert writes nothing; the requested profile is inserted after the account and a failed profile insert leaves the account; uniqueness of user names and e-mails is preserved |
| UserService.Service.GetUserByID | service/user_service.go:157-169 | the public view exists exactly when the account and its role do, with the account's id, user name and full name, the role name and no permissions |
| UserService.Service.GetUsers | service/user_service.go:172-206 | the normalised page of accounts, each paired with the role name of its own row in order, and ceiling page metadata |
| UserService.Service.UpdateCheck | service/user_service.go:210-225 | the account must exist, and a given e-mail must be used by no account, the account itself included |
| UserService.Service.UpdateUser | service/user_service.go:209-238 | a failed check or write changes nothing; otherwise only the given columns and the update time of that account change, the updated account is returned, and uniqueness is preserved |
| UserService.Service.DeleteUser | service/user_service.go:241-254 | an unknown account is refused; otherwise the account is deactivated |
| UserService.Service.UpdateUserRole | service/user_service.go:257-281 | the account is checked before the role and both before the write; success changes only the role and update time |
| UserService.Service.GetStudents | service/user_service.go:433-457 | the normalised page of active students with ceiling page metadata |
| UserService.Service.GetStudentByID | service/user_service.go:459-467 | a student with an active account, with exactly the details the store's lookup returns, or "student not found" |
| UserService.Service.GetStudentAchievements | service/user_service.go:470-494 | the normalised page of one student's achievements with ceiling page metadata; the student itself is not looked up |
| UserService.Service.UpdateStudentAdvisor | service/user_service.go:497-521 | the student, with an active account, is checked before the advisor and both before the write; success changes only the advisor |
| UserService.Service.GetLecturers | service/user_service.go:524-548 | the normalised page of active lecturers with ceiling page metadata |
| UserService.Service.GetLecturerAdvisees | service/user_service.go:551-581 | an unknown lecturer is refused before any listing; otherwise the normalised page of the advisees |
| UserService.OwnEmailIsRefused | service/user_service.go:216-225 | an update that repeats the account's own e-mail is refused with "email already exists" |
| UserService.TakenUsernameIsReportedFirst | service/user_service.go:76-82 | a creation request with a taken user name gets the user-name error whatever else is wrong with it |

## Left out

- SQL and document-store execution are abstract. The answer table `db` is not
  related to the maps, so no join, filter, order or count is given SQL
  meaning. Only the statements' filter and placeholder structure is exact,
  and their column lists are abbreviated.
- Point lookups are map membership. A driver error on such a lookup is
  treated like a missing row, because every service branch treats the two
  alike.
- Database constraints are not modelled: uniqueness of user names and
  e-mails, and foreign keys. Uniqueness is instead proved as an invariant
  the service preserves, under the model's checks.
- HTTP plumbing is left out: request parsing, query parameters, context
  locals and JSON responses. The only exceptions are the sign-out header
  parsing and the sign-in status table. The user and achievement endpoints
  are not modelled.
- Each service call takes one `now`, where the source reads the clock
  several times.
- Fresh ids, the password hash and its check, token signing, validation,
  extraction and expiry reading, and case-insensitive comparison are
  parameters. The claim extraction from the request context is not part of
  this model.
- Locking, the asynchronous removal of an expired token and the hourly
  cleanup ticker are left out. The removal happens synchronously inside the
  lookup, and the sweep is the explicit `Cleanup(now)`. The global instances
  created at start-up are not modelled.
- GetStudentReport and GetReportsStatistics of the achievement service are
  left out. So are its endpoints, the user repository's id lookups by other
  keys, and the profile endpoint of sign-in.
- The statement behind `GetAllStudentIDs` lives in a file that is not part of
  this model, so its text is a stand-in.
- The re-reads after a user update, a role update and an advisor update
  ("failed to get updated user", "failed to get updated student") cannot fail
  in the model. The account or student was checked to exist and the update
  keeps its role, so those error branches are not modelled.
- AchievementService.Service.UpdateAchievement,
  AchievementService.Service.SubmitForVerification,
  AchievementService.Service.VerifyAchievement and
  AchievementService.Service.RejectAchievement: after the writes have been
  committed, the source reads the reference again and returns the read's
  error if that read fails. In the model that read is a map lookup of a row
  that was just written, so it cannot fail. The outcome "state changed, caller
  gets an error" is therefore not modelled for these four methods.
- AchievementRepository.Repository.AddAttachmentToAchievement and
  AchievementRepository.Repository.SoftDeleteAchievementMongo: the attachment
  push sets the document key `updatedAt`, while the soft delete sets
  `updated_at`. The document's field tags are not part of this model, so it
  is not known which key is the stored update time. The model treats both
  keys as the one field `updatedAt` that both writes bump. The same applies to
  AchievementService.Service.UploadAttachment, which calls the push.
- The JSON `null` of an empty user list (a nil slice in the source) is the
  empty sequence.
- Integers are unbounded. Page and limit arithmetic in the source is on
  machine integers, whose overflow the model does not reproduce.
- UserRepository.RuneText: models `rune(argCount+'0')` for the indices the
  builder produces. A value that is not a Unicode scalar becomes U+FFFD, as
  Go's conversion does. The model does not treat surrogate code points
  further.
