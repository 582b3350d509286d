# gin-starter core, modelled in Dafny

This project models the sequential decision logic of the `gin-starter` Go
service and proves properties of it:

- the transactional CRUD executor `crudRepository` (connection health check,
  begin/exec/commit/rollback, and the row-mapping reads),
- the retrying partner caller `MakeRestCallToPartner`,
- the `Pagination` value with its lazily defaulting getters, and
  `PaginateQueryExtractor`,
- the utilities (membership search, `ConvertToInt64`, environment lookup),
  the `ErrorMessage` type and `ErrorResponse`,
- `UserRequestDto.Validate`,
- the user repository and user service, which delegate to the executor.

The database driver and the HTTP client are replaced by scripts of their
answers. The executor is a class whose `trace` field records every driver
call (`Connect`, `Ping`, `Begin`, `Exec`, `QueryRow`, `Query`, `Map`,
`Commit`, `Rollback`). Each operation is proved to append exactly the events,
and return exactly the result, that a pure function of its script gives
(`CrudSpec`). The properties are proved about those functions: at most two
reconnects, the transaction is never ended twice by `Delete`/`Update`, the
zero-row asymmetry, first-failure aborts, and so on.

Files:

| file | module | models |
|---|---|---|
| `go_int.dfy` | `Wrappers`, `GoInt` | `Option`/`Result` for Go's `nil`-or-value returns; `int64` and the smaller integer kinds; 64-bit wrap-around |
| `response.dfy` | `Constants`, `Response` | the message constants; `ErrorMessage`, its constructors and `ErrorResponse` |
| `strconv.dfy` | `Strconv` | `strconv.ParseInt(s, 10, 64)`/`Atoi`, as Go's digit loop, and `Itoa` |
| `common_utility.dfy` | `CommonUtility` | `StringContains`, `IntContains`, `ConvertToInt64`, `GetEnvAsInt`, `GetEnvAsString` |
| `pagination.dfy` | `PaginationUtil` | `Pagination` and its getters; `PaginateQueryExtractor` |
| `crud_spec.dfy` | `CrudSpec` | driver answers, trace events, and the outcome of each executor operation |
| `crud_repository.dfy` | `CrudRepository` | the `crudRepository` class |
| `rest_caller.dfy` | `RestCaller` | `MakeRestCallToPartner` |
| `user.dfy` | `Models` | `User`; `UserRequestDto.Validate` |
| `user_repository.dfy` | `UserRepository` | `UserRepoHandler` |
| `user_service.dfy` | `UserService` | `userHandler.GetUserByEmail` |

Two behaviours of the code worth noting:

- **Non-OK message.** The non-OK partner message is exactly
  `"Received non-OK HTTP status: "`. The body read at
  `internal/app/services/restCaller.go:73` declares a new `body` with `:=`,
  so the outer `body` used at line 84 is always empty.
- **Create after a commit failure.** `Create` issues a commit and then also a
  rollback when the commit fails (`internal/app/repository/CRUDRepository.go:95-98`).
  `Delete` and `Update` never do both.

## Model

| member | source | states |
|---|---|---|
| `GoInt.Wrap64` | internal/app/utils/pagination.go:20-22 | the result is the 64-bit two's-complement value congruent to the input mod 2^64, and equals the input when it already fits |
| `Response.ErrorMessage.Error` | internal/app/utils/response.go:48-50 | `Error()` is the message |
| `Response.ErrorIgnoresStatus` | internal/app/utils/response.go:48-50 | `Error()` does not depend on the status code |
| `Response.NewValidationErrorMessage` | internal/app/utils/response.go:52-57 | status 400, and the message is unchanged |
| `Response.NewErrorMessage` | internal/app/utils/response.go:59-64 | status 500, and the message is unchanged |
| `Response.ErrorResponse` | internal/app/utils/response.go:22-41 | aborts with the given status and a body whose only key is `error`, holding the message; the log record has status, method, path and message, and a `RequestId` field exactly when the context holds one |
| `Response.ErrorResponseIgnoresRequestId` | internal/app/utils/response.go:22-41 | with or without a request id, the status and body are the same, and the log records differ only in the `RequestId` field |
| `Strconv.ParseInt64Correct` | internal/app/utils/commonUtility.go:49-51 | `ParseInt(s, 10, 64)` succeeds iff `s` is an optionally signed digit string whose value fits `int64`, and then yields that value; an out-of-range decimal clamps to the bound with a range error |
| `Strconv.ParseFormatRoundTrip` | internal/app/utils/commonUtility.go:64 | parsing the decimal text of any `int64` gives it back with no error |
| `CommonUtility.StringContains` | internal/app/utils/commonUtility.go:13-20 | true iff some element equals the string (so false on an empty slice) |
| `CommonUtility.IntContains` | internal/app/utils/commonUtility.go:22-29 | true iff some element equals the value |
| `CommonUtility.ConvertToInt64` | internal/app/utils/commonUtility.go:31-55 | every integer kind converts losslessly with no error; a string succeeds iff it is an in-range decimal, with its value, and otherwise reports `ParseInt`'s error kind and the input; any other type gives 0 and an unsupported-type error |
| `CommonUtility.ConvError.Message` | internal/app/utils/commonUtility.go:49-53 | a parse failure reads `strconv.ParseInt: parsing`, the quoted input, and `: invalid syntax` or `: value out of range` by its kind; any other type reads `unsupported type: ` and the type name |
| `CommonUtility.ConvertSyntaxErrorMessage` | internal/app/utils/commonUtility.go:49-51 | converting `"abc"` gives the error text `strconv.ParseInt: parsing "abc": invalid syntax` |
| `CommonUtility.ConvertToInt64Examples` | internal/app/utils/commonUtility.go:49-51 | `"123"` converts to 123, and `"abc"` gives an error |
| `CommonUtility.GetEnvAsInt` | internal/app/utils/commonUtility.go:59-69 | a missing or non-integer variable gives the default; otherwise the parsed value |
| `CommonUtility.GetEnvAsIntOfItoa` | internal/app/utils/commonUtility.go:59-69 | a variable holding `Itoa(n)` reads back as `n` |
| `CommonUtility.GetEnvAsString` | internal/app/utils/commonUtility.go:71-77 | the default only when the variable is absent; a present value, even an empty one, is returned |
| `PaginationUtil.ResolvedLimit` | internal/app/utils/pagination.go:23-28 | a zero limit reads as 10; any other limit, negative ones included, is kept |
| `PaginationUtil.ResolvedPage` | internal/app/utils/pagination.go:29-34 | a zero page reads as 1; any other page is kept |
| `PaginationUtil.ResolvedSort` | internal/app/utils/pagination.go:35-40 | an empty sort reads as `"id" desc`; any other sort is kept |
| `PaginationUtil.ResolvedIdempotent` | internal/app/utils/pagination.go:23-40 | resolving a default twice equals resolving it once, so a second getter call writes nothing new |
| `PaginationUtil.Pagination.constructor` | internal/app/utils/pagination.go:69-73 | a literal with limit, page and sort set; count, page count and rows are zero |
| `PaginationUtil.Pagination.GetLimit` | internal/app/utils/pagination.go:23-28 | writes 10 into an unset limit; returns the stored limit |
| `PaginationUtil.Pagination.GetPage` | internal/app/utils/pagination.go:29-34 | writes 1 into an unset page; returns the stored page |
| `PaginationUtil.Pagination.GetSort` | internal/app/utils/pagination.go:35-40 | writes `"id" desc` into an unset sort; returns the stored sort |
| `PaginationUtil.Pagination.GetOffset` | internal/app/utils/pagination.go:20-22 | resolves page then limit through the getters, and returns `(page - 1) * limit` in wrapping `int` arithmetic |
| `PaginationUtil.Offset` | internal/app/utils/pagination.go:21 | when no overflow occurs, the offset is exactly `(page - 1) * limit` |
| `PaginationUtil.CeilDiv` | internal/app/repository/CRUDRepository.go:190 | the least integer not below `a / b`, for either sign of `b` |
| `PaginationUtil.PositiveOr` | internal/app/utils/pagination.go:45-53 | a value that does not parse or is not positive becomes the fallback; the result is always positive |
| `PaginationUtil.PaginateQueryExtractor` | internal/app/utils/pagination.go:44-74 | an error iff a non-empty sort is not in the whitelist (400 "Invalid sort field"); limit and page are positive and defaulted; an empty sort gives `""`; a valid one gives `"<field>" DESC` exactly when `sortDesc` is `"true"`, else ASC |
| `PaginationUtil.ExtractorKeepsPositiveValues` | internal/app/utils/pagination.go:45-53 | positive page and page size are taken as written |
| `PaginationUtil.ExtractorDefaultsNegativeValues` | internal/app/utils/pagination.go:45-53 | `page=-1&per_page=-1` gives page 1 of 10 |
| `PaginationUtil.PositiveOffset` | internal/app/utils/pagination.go:20-22 | positive page and limit are kept as given, and the offset is then the non-negative `(page - 1) * limit` when that product fits in `int64` |
| `PaginationUtil.ExtractedOffset` | internal/app/utils/pagination.go:20-22 | an extracted pagination needs no defaults, and its offset is the non-negative `(page - 1) * limit` |
| `CrudSpec.HealthEvents` | internal/app/repository/CRUDRepository.go:40-56 | the health check pings exactly once and connects at most twice; it connects not at all iff a handle existed and answered the ping |
| `CrudSpec.CommitOutcome` | internal/app/repository/CRUDRepository.go:114-123 | nil iff the commit succeeds, otherwise 500 `COMMIT_FAILED(kind)` |
| `CrudSpec.DeleteRun` | internal/app/repository/CRUDRepository.go:58-78 | a begin failure is 500 `FAILED_BEGIN_TRANSACTION` with nothing else run; an exec failure is one rollback and 500 `FAILED_TO_UPDATE_OBJ(kind)`, whatever the rollback answers; zero rows is nil with no commit or rollback; otherwise one commit; every error is a 500; success iff begun, executed, and zero rows or committed |
| `CrudSpec.UpdateRun` | internal/app/repository/CRUDRepository.go:136-161 | as `DeleteRun`, except that zero rows is 404 `NO_ROWS_AFFECTED(kind)`; success iff begun, executed, rows affected and committed |
| `CrudSpec.CreateOutcome` | internal/app/repository/CRUDRepository.go:79-100 | a begin failure is (-1, `FAILED_BEGIN_TRANSACTION`); a scan failure is one rollback and (-1, 500 `FAILED_TO_CREATE_OBJ`); a commit failure is commit, then rollback, then (-1, `FAILED_TO_UPDATE_OBJ`); otherwise (scanned id, nil) after one commit |
| `CrudSpec.TransactionEndsAtMostOnce` | internal/app/repository/CRUDRepository.go:58-161 | `Delete` and `Update` commit or roll back at most once in all; they roll back iff the exec failed, commit iff rows were affected, and execute once iff begun |
| `CrudSpec.CreateCommitThenRollback` | internal/app/repository/CRUDRepository.go:87-98 | `Create` commits at most once and rolls back at most once, and does both exactly when the commit fails |
| `CrudSpec.ZeroRowsAsymmetry` | internal/app/repository/CRUDRepository.go:72-159 | on zero affected rows `Delete` returns nil and `Update` a 404, with the same driver calls |
| `CrudSpec.DeleteUpdateAgree` | internal/app/repository/CRUDRepository.go:58-161 | apart from the zero-row case, `Delete` and `Update` have identical outcomes |
| `CrudSpec.MapRows` | internal/app/repository/CRUDRepository.go:206-213 | either every row is mapped, with the items in row order, or the index of the first rejected row, all earlier rows having been mapped |
| `CrudSpec.MapRowsFailsAt` | internal/app/repository/CRUDRepository.go:206-213 | the mapping stops at the first rejected row |
| `CrudSpec.MapRowsAllMapped` | internal/app/repository/CRUDRepository.go:206-213 | when every row maps, the items are the mapped rows in order |
| `CrudSpec.GetRun` | internal/app/repository/CRUDRepository.go:195-215 | query failure is "Failed to execute query"; when every row maps, the mapped rows in query order and no error; otherwise "Failed to scan row" at the first mapper error with no later row mapped; a value iff no error |
| `CrudSpec.GetReturnsMappedRows` | internal/app/repository/CRUDRepository.go:195-215 | rows that all map give exactly their items in order, no error, and one mapper call per row |
| `CrudSpec.GetOneRun` | internal/app/repository/CRUDRepository.go:217-230 | the mapper runs once; a mapped row gives its item and no error; `ErrNoRows` is a 404 "No <kind> found with the given criteria", any other mapper error a 500 `FAILED_SCAN`; an item iff no error |
| `CrudSpec.PagedRun` | internal/app/repository/CRUDRepository.go:163-193 | a data-query failure is "Failed to execute query" and a mapping failure `FAILED_SCAN`, both before the count query; a count failure is "Failed to count total rows"; otherwise the items and the count |
| `CrudSpec.PagedFailureSkipsCount` | internal/app/repository/CRUDRepository.go:166-187 | a data-query or mapping failure never reaches the count query |
| `CrudRepository.CrudRepository.constructor` | internal/app/repository/CRUDRepository.go:34-38 | a repository with the given pool or none, not locked, nothing recorded |
| `CrudRepository.CrudRepository.ConnectDB` | internal/app/repository/CRUDRepository.go:47 | records one connection and returns a handle newer than every earlier one |
| `CrudRepository.CrudRepository.CheckAndResetDBConnection` | internal/app/repository/CRUDRepository.go:40-56 | records exactly the health-check events; keeps a handle that answered the ping, otherwise holds the newest connection; a handle exists afterwards and `lock` is false |
| `CrudRepository.CrudRepository.BeginTransaction` | internal/app/repository/CRUDRepository.go:101-112 | health check, then begin; a transaction on the current handle, or 500 `FAILED_BEGIN_TRANSACTION` |
| `CrudRepository.CrudRepository.CommitTransaction` | internal/app/repository/CRUDRepository.go:114-123 | records one commit; the result is `CommitOutcome` |
| `CrudRepository.CrudRepository.RollBackTransaction` | internal/app/repository/CRUDRepository.go:125-134 | records one rollback; always 500 `FAILED_TO_UPDATE_OBJ(kind)` |
| `CrudRepository.CrudRepository.Delete` | internal/app/repository/CRUDRepository.go:58-78 | the health check, then exactly the events and the error of `DeleteRun` |
| `CrudRepository.CrudRepository.Update` | internal/app/repository/CRUDRepository.go:136-161 | the health check, then exactly the events and the error of `UpdateRun` |
| `CrudRepository.CrudRepository.Create` | internal/app/repository/CRUDRepository.go:79-100 | the health check, then exactly the events, id and error of `CreateOutcome` |
| `CrudRepository.CrudRepository.GetOne` | internal/app/repository/CRUDRepository.go:217-230 | the health check, then exactly the events, item and error of `GetOneRun` |
| `CrudRepository.CrudRepository.MapAll` | internal/app/repository/CRUDRepository.go:206-213 | the `rows.Next()` loop: returns `MapRows` and records one mapper call per row up to and including the first rejected one |
| `CrudRepository.CrudRepository.Get` | internal/app/repository/CRUDRepository.go:195-215 | the health check, then exactly the events, rows and error of `GetRun` |
| `CrudRepository.CrudRepository.GetWithPagination` | internal/app/repository/CRUDRepository.go:163-193 | the events and error of `PagedRun`; on failure the pagination is untouched; on success it holds the rows and the count, the limit is defaulted, the page count is the ceiling of count over limit, and the same pagination is returned |
| `CrudRepository.CrudRepository.StorePage` | internal/app/repository/CRUDRepository.go:189-191 | sets the count, the page count over the defaulted limit, and the rows; page and sort are kept |
| `RestCaller.Attempts` | internal/app/services/restCaller.go:52-67 | between 1 and 6 calls; every call but the last was a transport error; the last is a response, or the sixth call |
| `RestCaller.ResponseOutcome` | internal/app/services/restCaller.go:69-91 | nil iff the body reads and the status is 200; otherwise the response's status with "Failed to read response body -> …" or exactly "Received non-OK HTTP status: " |
| `RestCaller.ExhaustedError` | internal/app/services/restCaller.go:55-64 | "Failed to make GET request after retries -> " plus the error text, with the response's status if there is one and 0 otherwise |
| `RestCaller.Repeat` | internal/app/services/restCaller.go:50-53 | `n` copies of the same value, the list of URLs the call requests |
| `RestCaller.Backoffs` | internal/app/services/restCaller.go:65-66 | the sleep before retry k is k times the initial backoff |
| `RestCaller.MakeRestCallToPartner` | internal/app/services/restCaller.go:47-92 | every call requests `url + "?" + params`; calls and sleeps are `Attempts` and `Backoffs`; the result is decided by the last attempt |
| `RestCaller.SumBackoffs` | internal/app/services/restCaller.go:65-66 | k retries sleep k(k+1)/2 initial backoffs in all |
| `RestCaller.AlwaysFailing` | internal/app/services/restCaller.go:53-67 | an always-failing transport is called 6 times, the sleeps total 15 initial backoffs, and the last error is reported |
| `RestCaller.SucceedsAfter` | internal/app/services/restCaller.go:82-91 | a 200 after k transport failures means k+1 calls, k sleeps and a nil result |
| `RestCaller.ResponseIsTerminal` | internal/app/services/restCaller.go:69-89 | no attempt follows a received response, and that response decides the result |
| `RestCaller.NonOkIgnoresBody` | internal/app/services/restCaller.go:73-87 | the non-OK message is the same whatever the body holds |
| `Models.User.constructor` | internal/app/models/user.go:12-23 | a user with the given fields |
| `Models.Utf8Length` | internal/app/models/user.go:55 | Go's `len`: at least one byte per character and at most four, and zero only for the empty string |
| `Models.AsciiLength` | internal/app/models/user.go:55 | on ASCII text the byte length is the character count |
| `Models.FirstFailure` | internal/app/models/user.go:47-71 | nil iff no check fails; otherwise the 400 error of the first failing check |
| `Models.UserRequestDto.Validate` | internal/app/models/user.go:47-71 | every error is a 400; nil iff the email is non-empty and parses, the password has at least 8 bytes, and display name, first name, last name and role are non-empty; an empty or unparsable email is `INVALID_EMAILID`, and a short password is `INVALID_PASSWORD` |
| `Models.ValidateIsFirstFailure` | internal/app/models/user.go:47-71 | `Validate` returns the first failing check in source order |
| `Models.EmptyLastNameReported` | internal/app/models/user.go:64-66 | an empty last name, after every earlier check passes, is `EMPTY_FIELD("UserLastName")` |
| `UserRepository.InsertArgs` | internal/app/repository/userRepository.go:39 | the nine user fields in insert-column order |
| `UserRepository.SelfDetailsArgs` | internal/app/repository/userRepository.go:89-92 | the new email, display, first and last name as $1..$4, the current email as $5 |
| `UserRepository.AssertInt64` | internal/app/repository/userRepository.go:40 | the value when the id is an `int64`, otherwise 0 |
| `UserRepository.FailedCreateZeroesId` | internal/app/repository/userRepository.go:40-41 | every failed create leaves the id at 0, since the executor's -1 is an `int` |
| `UserRepository.CreatedIdStored` | internal/app/repository/userRepository.go:40-41 | a successful create with an `int64` id stores that id |
| `UserRepository.UserRepoHandler.constructor` | internal/app/repository/userRepository.go:13-17 | a handler over the given executor |
| `UserRepository.UserRepoHandler.Create` | internal/app/repository/userRepository.go:35-43 | passes the insert arguments to the executor's `Create`; returns the same user and the executor's error; writes the asserted id into the user, so every failure leaves id 0 |
| `UserRepository.UserRepoHandler.Delete` | internal/app/repository/userRepository.go:45-53 | the executor's `Delete` result unchanged, nil for a zero-row delete included |
| `UserRepository.UserRepoHandler.GetUserByID` | internal/app/repository/userRepository.go:55-63 | `GetOne` with the id as $1; its item and error unchanged |
| `UserRepository.UserRepoHandler.Get` | internal/app/repository/userRepository.go:65-71 | `GetOne` with the email as $1; its item and error, a 404 included, unchanged |
| `UserRepository.UserRepoHandler.UpdatePassword` | internal/app/repository/userRepository.go:73-79 | `Update` with email, hash and salt as $1..$3 |
| `UserRepository.UserRepoHandler.UpdateUserSelfDetails` | internal/app/repository/userRepository.go:81-93 | `Update` with the self-details arguments, the current email last |
| `UserRepository.UserRepoHandler.ListAllUsers` | internal/app/repository/userRepository.go:95-100 | `Get` with no query arguments; its rows and error unchanged |
| `UserService.ServiceAnswer` | internal/app/services/userService.go:27-30 | any repository error becomes (nil, 500 "Failed to fetch user details, please try again."); otherwise the user unchanged |
| `UserService.NotFoundBecomesServerError` | internal/app/services/userService.go:27-29 | a missing user is a 404 from the repository and the same fixed 500 from the service |
| `UserService.UserService.constructor` | internal/app/services/userService.go:20-23 | the AES key comes from `AES_KEY` or defaults to `1234567812345678` |
| `UserService.UserService.GetUserByEmail` | internal/app/services/userService.go:25-31 | one repository `Get` with the email unchanged, and its answer mapped by `ServiceAnswer` |

## Left out

- The `for crud.lock {}` busy wait: it only matters under concurrency. The model is sequential, and `Valid()` keeps `lock` false between calls.
- `config.ConnectDB`, pgx/pgxpool and the connection URL: replaced by a counter of connections. Ping, begin, exec, scan, commit, rollback and the query answers are parameters (`TxScript`, `CreateScript`, `RowsAnswer`, the mapper, the optional count).
- The row mappers' `row.Scan` (`userMapper`, `userMapperWithoutPassword`): a mapper is any function from a row to a value, `ErrNoRows` or another error.
- `rows.Err()` is never consulted by the source, so an iteration error ends the rows like a normal end. `rows.Close()` and `resp.Body.Close()` are not modelled.
- Go's distinction between a nil slice and an empty one: a `Get` over no rows returns `Some([])`.
- Floating point: the `float32`/`float64` cases of `ConvertToInt64`. The page count is the exact integer ceiling of `count / limit` rather than `math.Ceil` over two `float64`; the two differ only for counts beyond 2^53.
- `CommonUtility.Quote`: escapes only `"` and `\`; the escapes `strconv.Quote` writes for control and non-printable characters are not modelled, so error texts of such inputs differ.
- `CrudRepository.CrudRepository.GetWithPagination`: the caller's `*Pagination` is a non-null reference, so the nil-pointer panic is not modelled.
- The HTTP client, `io.ReadAll` and `time.Sleep`: the transport answers attempt i, and the sleeps are returned as a list of durations. `clientTimeout` is a constant used only by the client. A transport returning neither a response nor an error (a panic in Go) cannot be expressed.
- `net/mail.ParseAddress`: a predicate parameter of `Validate`.
- The `constants` package is not part of this model. Its messages are distinct placeholder texts, and the `%s` ones are functions of the kind.
- SQL texts: whitespace runs are collapsed to single spaces. Statements are never interpreted.
- Logging (logrus) beyond the fields of `ErrorResponse`'s record, Gin (`RespondJSON`, context reads in `PaginateQueryExtractor`, which here takes the four query strings), controllers, middlewares, the router, `SetLogLevel`, and the bootstrap files.
- Timestamps are integers; `time.Time` and `NOW()` are not modelled.
