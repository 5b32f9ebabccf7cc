# Users API: validation, e-mail guard, storage and request pipeline

A model of the core of a small Express service that stores one kind of
record, a `User` (`id`, `firstName`, `lastName`, `emails`, `dob`), behind
four routes under `/users`. Each route runs an ordered chain of stages:
- fetching the addressed user;
- validating the payload against the user schema;
- guarding the e-mail addresses against deletion;
- a handler that writes to the table.

Any error a stage forwards is turned into the uniform error envelope.

The model has these parts:

- **Payload and schema** (`wrappers.dfy`, `json.dfy`, `issues.dfy`, `formats.dfy`, `user_schema.dfy`):
  - a parsed JSON body is a `Value`, and an absent body is `None`;
  - `Validate(body, optional)` is the strict user schema, with the keys in `optional` made optional;
  - it answers the parsed payload (a `Draft`) or the ordered list of issues, each with its code, message, path and unrecognised keys.
- **Schema properties** (`schema_properties.dfy`):
  - a payload that obeys every rule parses back to itself;
  - whatever is accepted obeys every rule;
  - every rule's rejection carries its own message and path.
- **Errors** (`errors.dfy`): the error classes, each with its name, status code and default message, plus the older revisions of the e-mail deletion error.
- **Storage** (`repository.dfy`):
  - `UserRepository` is a class over a map from id to user;
  - its conditional `create`, its `get`, its whole-item conditional `update` and its unconditional `delete` are each proved against a function on the table;
  - a failure of the storage service is a parameter (`fault`).
- **Responses** (`http_responses.dfy`): the success and error envelopes, and the error handler that projects an error onto the error envelope.
- **E-mail guards** (`email_guards.dfy`): the current guard, the older skip-when-absent guard and the older combined validate-then-guard stage.
- **Stages** (`middleware.dfy`):
  - the fetch and validation stages work in place on an `Exchange`, the request's mutable state: body, fetched user, calls of `next` and responses written;
  - each stage is modelled both as written and as corrected (see Findings).
- **Application** (`handler.dfy`):
  - the route handlers;
  - the route chains (`Handle`), proved equal to the pure function `Respond`, which maps a request and the table to the response and the new table;
  - the fresh id for a create is a parameter, and so are the storage faults.
- **End-to-end properties** (`handler_properties.dfy`), proved over all requests:
  - create-then-read;
  - idempotent delete;
  - an update never drops an address;
  - only successful requests write;
  - the table only ever holds well-formed users stored under their own ids.

On an update the id comparison in `updateUser` runs after the e-mail guard, following the order of the route chain, so a payload with another id that also drops an address is answered with the deletion error.

The route handlers in `src/handler.ts` import `src/` versions of the schema, the fetch and validation stages and the response helpers. Those files are not part of this model. Their `user-service/` counterparts stand in for them.

The route chains (`Handle`, `Respond`) compose the corrected stages (`Middleware.FetchUser`, `Middleware.ValidatePayload`), not the as-written ones. They do so because the tests of the `src/` stages and routes expect each stage to forward its error and stop (src/middleware/fetchUserMiddleware.test.ts:26-44, src/middleware/validatePayloadMiddleware.test.ts:26-37, src/handler.test.ts:40-57). The end-to-end properties therefore describe the corrected chain; what the `user-service/` stages do as written is stated by the Findings members.

## Model

| member | source | states |
|---|---|---|
| UserSchema.Mask | user-service/middleware/validatePayloadMiddleware.ts:13-16 | the folded mask marks exactly the listed keys as optional |
| UserSchema.UniqueIffNoDuplicates | user-service/types/user.ts:20-22 | the set of the addresses has as many elements as the list exactly when no two positions hold the same address |
| UserSchema.UnknownKeysListed | user-service/types/user.ts:31 | the strict check lists a key exactly when some field of the object has it and it is not one of the five schema keys |
| SchemaProperties.ValidateAccepts | user-service/types/user.ts:3-31 | a payload whose present fields obey every rule and that omits only optional keys validates to itself, unchanged |
| SchemaProperties.ValidateSound | user-service/types/user.ts:3-31 | an accepted body is an object with no unknown key, its draft is admissible, and each schema key holds exactly what the draft encodes |
| SchemaProperties.ParsedAdmissible | user-service/types/user.ts:3-29 | fields that raise no issue under any schema key parse to an admissible draft |
| SchemaProperties.ParsedEncodes | user-service/types/user.ts:3-29 | fields that raise no issue hold, key by key, exactly the encoding of their parsed draft |
| SchemaProperties.AcceptedIff | user-service/types/user.ts:3-31 | an object is accepted iff no schema key raises an issue and there is no unknown key, and then it parses to its own draft |
| SchemaProperties.WellFormedIffAccepted | user-service/types/user.ts:3-31 | the full schema accepts a user unchanged iff the user obeys every rule |
| SchemaProperties.FullSchemaYieldsUser | user-service/types/user.ts:3-31 | whatever the full, all-required schema accepts is a complete, well-formed user |
| SchemaProperties.MaskingOnlyRelaxes | user-service/middleware/validatePayloadMiddleware.ts:13-18 | making keys optional never changes the result for a payload the full schema accepts |
| SchemaProperties.RequiredKeyKeepsRule | user-service/middleware/validatePayloadMiddleware.ts:13-17 | a key not in the mask keeps its full rule, and its issues are all reported |
| SchemaProperties.FieldIssueReported | user-service/types/user.ts:3-29 | an issue raised by any schema key fails the whole payload and is listed |
| SchemaProperties.IdMustBeUuid | user-service/types/user.ts:6 | a string id that is not a UUID is reported with 'The id needs to be a valid UUID' at ["id"] |
| SchemaProperties.NamesRequiredAndNonEmpty | user-service/types/user.ts:7-12 | a required first or last name that is missing or not a string is reported as required, an empty one as empty, each at [key] |
| SchemaProperties.EmailsFieldRequired | user-service/types/user.ts:14-17 | a required `emails` that is missing or not an array is reported with 'The emails field is required' |
| SchemaProperties.EmailCountBounded | user-service/types/user.ts:18-19 | an empty list is reported with the at-least-1 message and a list longer than 3 with the at-most-3 message, at ["emails"] |
| SchemaProperties.InvalidEmailReportedAtIndex | user-service/types/user.ts:15 | a string element that is not an e-mail address fails the payload with 'Invalid email format' at ["emails", i] for its own index |
| SchemaProperties.DuplicateEmailsRejected | user-service/types/user.ts:20-22 | a list of strings with a repeated address fails with 'All the emails must be unique' at ["emails"] |
| SchemaProperties.DobRequiredAndDated | user-service/types/user.ts:24-28 | a required dob that is missing or not a string is reported as required; a string that is not a YYYY-MM-DD date is reported with the format message |
| SchemaProperties.UnknownKeyRejected | user-service/types/user.ts:30-31 | a key outside the schema fails the payload with one unrecognised-keys issue that lists every such key |
| SchemaProperties.SingleUnknownKeyMessage | user-service/types/user.ts:31 | with one unknown key the message is "Unrecognized key(s) in object: 'k'" |
| SchemaProperties.NonObjectRejected | user-service/types/user.ts:3-4 | a missing or non-object body yields exactly one type issue at the root |
| Formats.SampleUuidAccepted | user-service/types/user.ts:6 | the identifier used in the repository's tests is accepted as a UUID |
| Formats.SampleEmailsJudged | user-service/types/user.ts:15 | a plain address is accepted and 'invalid-email' is rejected |
| Formats.SampleDatesJudged | user-service/types/user.ts:28 | an ordinary date and a leap day are accepted, and 29 February of a common year is rejected |
| Formats.EmptyStringRejected | user-service/types/user.ts:6-28 | the empty string is not a UUID, an address or a date |
| Errors.InvalidPayloadError | src/errors/InvalidPayloadError.ts:6-20 | name 'InvalidPayloadError', status 400, default message 'Invalid payload' that a given message replaces, and the issue list carried verbatim |
| Errors.UserNotFoundError | src/errors/UserNotFoundError.ts:4-12 | name 'UserNotFoundError', status 404, default message 'User not found' that a given message replaces |
| Errors.UserAlreadyExistsError | src/errors/UserAlreadyExistsError.ts:4-12 | name 'UserAlreadyExists', status 400, default message 'A user with the same id already exists' that a given message replaces |
| Errors.InvalidEmailDeletionError | src/errors/InvalidEmailDeletionError.ts:1-9 | name 'InvalidEmailDeletionError', status 400, default message 'Deleting an email address is not allowed' that a given message replaces |
| Errors.RouteNotFoundError | src/errors/RouteNotFoundError.ts:1-9 | name 'RouteNotFoundError', status 404, default message 'Route not found' that a given message replaces |
| Errors.LegacyInvalidEmailDeletionError | user-service/errors/InvalidEmailDeletionError.ts:1-9 | the older revision: same name and status, default message 'Deleting an email is not allowed' |
| Errors.EmailDeletionError | user-service/errors/EmailDeletionError.ts:1-9 | name 'EmailDeletionError', status 400, default message 'Deleting an email is not allowed' |
| Errors.UntypedError | user-service/repositories/UserRepository.ts:69 | any other thrown error keeps its type name and message and has no status code and no issue list |
| Errors.EmailDeletionRevisionsDiffer | user-service/errors/InvalidEmailDeletionError.ts:4 | the two revisions of the deletion error agree on name and status and differ in message exactly when none is given |
| Repository.Insert | user-service/repositories/UserRepository.ts:55-71 | the write succeeds iff the service does not fail and the id is absent; a present id raises UserAlreadyExistsError; a failure is re-thrown unchanged; a failed write leaves the table as it was; a success stores the user under its id and touches no other id |
| Repository.Lookup | user-service/repositories/UserRepository.ts:73-84 | a read answers a user exactly when the id is stored, and then the stored user itself; a service failure otherwise |
| Repository.Replace | user-service/repositories/UserRepository.ts:86-104 | the write succeeds iff the service does not fail and the id is stored; an absent id raises UserNotFoundError; a success replaces the whole item, answers the new item, keeps the same ids and touches no other id |
| Repository.Remove | user-service/repositories/UserRepository.ts:106-115 | the delete succeeds whenever the service does not fail, the id is then absent, and no other id is touched |
| Repository.UserRepository.constructor | user-service/repositories/UserRepository.ts:51-53 | a new repository's table is empty |
| Repository.UserRepository.Create | user-service/repositories/UserRepository.ts:55-71 | the new table and the outcome are those of Insert on the old table |
| Repository.UserRepository.Get | user-service/repositories/UserRepository.ts:73-84 | the answer is Lookup on the table, and a found user is the stored one |
| Repository.UserRepository.Update | user-service/repositories/UserRepository.ts:86-104 | the new table and the answer are those of Replace on the old table |
| Repository.UserRepository.Delete | user-service/repositories/UserRepository.ts:106-115 | the new table and the outcome are those of Remove on the old table |
| Repository.CreateThenGet | user-service/repositories/UserRepository.ts:55-84 | after a successful create, reading the id answers the created user |
| Repository.DeleteIdempotent | user-service/repositories/UserRepository.ts:106-115 | deleting succeeds, and deleting again leaves what one delete left |
| Repository.WritesKeepKeyed | user-service/repositories/UserRepository.ts:55-115 | every write keeps each item stored under its own id |
| HttpResponses.IssueJson | src/handler.test.ts:105-110 | a serialised issue carries its code, its path as an array of keys and indices, and its message, and a `keys` list exactly when it is an unrecognised-keys issue; the keys come in the order code, keys, path, message for type and unrecognised-keys issues (their message comes from the library's error map) and code, message, path for the issues raised with their own message |
| HttpResponses.SendSuccess | user-service/utils/httpResponses.ts:8-21 | the body is `{status: 'success', data}` with the given status; undefined data is absent from the keys |
| HttpResponses.SendError | user-service/utils/httpResponses.ts:23-39 | the body is `{status: 'error', message, errors}`; the status defaults to 500; undefined errors are absent from the keys |
| HttpResponses.ErrorHandler | src/middleware/errorHandlerMiddleware.ts:4-16 | the status is the error's status code or 500, and the message and issue list are the error's own |
| HttpResponses.ErrorHandlerReadsThreeFields | src/middleware/errorHandlerMiddleware.ts:10-15 | two errors that agree on status code, message and issue list get the same response |
| HttpResponses.PlainErrorIs500 | src/middleware/errorHandlerMiddleware.ts:11-12 | an error without a status code is answered 500 with its own message and no `errors` key |
| HttpResponses.DomainErrorAnswers | src/middleware/errorHandlerMiddleware.ts:10-15 | the not-found, route-not-found, already-exists and deletion errors are answered with their own status and default message |
| EmailGuards.EveryIff | src/middleware/validateEmailUpdatesMiddleware.ts:28-30 | the `every` test holds iff each stored address is in the set |
| EmailGuards.EveryIsSuperset | src/middleware/validateEmailUpdatesMiddleware.ts:26-30 | for a list of strings, the `Set`/`every` test is exactly "every stored address is among the incoming ones" |
| EmailGuards.SrcEmailGuard | src/middleware/validateEmailUpdatesMiddleware.ts:14-41 | no fetched user fails with UserNotFoundError; a missing or null body is a TypeError; any other failure is InvalidEmailDeletionError |
| EmailGuards.LegacyEmailGuard | user-service/middleware/validateEmailUpdatesMiddleware.ts:17-43 | the guard passes when `emails` is falsy or there is no fetched user; its only domain failure is the older deletion error |
| EmailGuards.ValidateUpdatePayload | user-service/middleware/validateUpdateUserPayloadMiddlware.ts:17-51 | a payload that fails the full schema forwards InvalidPayloadError with the issues; after validation the only failure is the older deletion error |
| EmailGuards.SrcGuardIsSuperset | src/middleware/validateEmailUpdatesMiddleware.ts:26-34 | with string addresses, the guard passes iff no stored address is dropped, and otherwise fails with InvalidEmailDeletionError |
| EmailGuards.ReorderAndAddPass | src/middleware/validateEmailUpdatesMiddleware.ts:26-30 | reordering the stored addresses and appending any others passes |
| EmailGuards.MissingEmailsIsEmpty | src/middleware/validateEmailUpdatesMiddleware.ts:26 | a body without `emails` passes only a user with no address |
| EmailGuards.DroppingAnAddressFails | src/middleware/validateEmailUpdatesMiddleware.ts:32-34 | dropping any stored address fails with InvalidEmailDeletionError |
| EmailGuards.LegacyGuardIsSuperset | user-service/middleware/validateEmailUpdatesMiddleware.ts:26-35 | when not skipped, the older guard passes iff no stored address is dropped, and otherwise fails with the older deletion error |
| EmailGuards.LegacyGuardKeepsSameEmails | user-service/middleware/validateEmailUpdatesMiddleware.test.ts:25-37 | the stored user sent back with a new first name passes |
| EmailGuards.LegacyGuardRejectsReplacement | user-service/middleware/validateEmailUpdatesMiddleware.test.ts:39-51 | replacing the addresses by one new address fails with the older deletion error |
| EmailGuards.UpdateStageIsSchemaThenSuperset | user-service/middleware/validateUpdateUserPayloadMiddlware.ts:24-46 | the combined stage passes iff the full schema accepts the payload and, when there is a fetched user, the parsed addresses keep every stored one |
| EmailGuards.AcceptedUpdateIsWellFormedSuperset | user-service/middleware/validateUpdateUserPayloadMiddlware.ts:24-43 | an accepted update is a complete, well-formed user (1 to 3 unique addresses) whose addresses include every stored one |
| Middleware.Fetched | user-service/middleware/fetchUserMiddleware.ts:9-19 | `next()` is called iff a user is found; a failed read and a missing user are forwarded as errors |
| Middleware.FetchUserAsWritten | user-service/middleware/fetchUserMiddleware.ts:4-20 | as written: a failed read escapes with nothing called or answered; a missing user is both forwarded and answered 404 `{error}`; a found user is stored in the context and `next()` is called |
| Middleware.FetchUser | user-service/middleware/fetchUserMiddleware.ts:9-19 | exactly one call of `next`, as Fetched decides; the found user is stored in the context; nothing is answered and the body is untouched |
| Middleware.Parsed | user-service/middleware/validatePayloadMiddleware.ts:17-21 | `next()` is called iff the masked schema accepts the body; otherwise InvalidPayloadError carries the full issue list |
| Middleware.ValidatePayloadAsWritten | user-service/middleware/validatePayloadMiddleware.ts:10-27 | as written: on failure the error is forwarded, then the body becomes undefined and `next()` is called again |
| Middleware.ValidatePayload | user-service/middleware/validatePayloadMiddleware.ts:10-27 | exactly one call of `next`; on success the body is replaced by the parsed payload, which validates again to the same payload; on failure the body is unchanged |
| Middleware.GuardEmails | src/middleware/validateEmailUpdatesMiddleware.ts:14-41 | exactly one call of `next`, with the guard's error if any; neither the body nor the context changes |
| Middleware.InvalidPayloadFallsThrough | user-service/middleware/validatePayloadMiddleware.ts:19-26 | a missing body makes the stage as written call `next(error)` and then `next()`, leaving the body undefined |
| Middleware.MissingUserForwardedAndAnswered | user-service/middleware/fetchUserMiddleware.ts:12-16 | on an empty table the stage as written forwards UserNotFoundError and also answers 404 |
| Middleware.RejectedReadEscapes | user-service/middleware/fetchUserMiddleware.ts:10 | a failed read leaves the stage as written with no call of `next` and no response |
| Handler.Resolve | src/handler.ts:75-92 | POST /users is the create route; GET, PUT and DELETE on /users/:id are the read, update and delete routes with that id; anything else falls through |
| Handler.WithId | src/handler.ts:33-35 | a truthy id is kept, and a falsy or missing one becomes the fresh id; no other key changes |
| Handler.ItemOf | src/handler.ts:38-39 | the stored item is the payload, with the fresh id when the payload has none |
| Handler.GetUser | src/handler.ts:22-28 | answers 200 with the fetched user as data and calls nothing |
| Handler.CreateUser | src/handler.ts:30-44 | the body gets its id in place; the table is that of Insert; success answers 201 with the body, and a failure is forwarded |
| Handler.UpdateUser | src/handler.ts:57-73 | a payload id other than the URL's is forwarded as InvalidPayloadError with no write; otherwise the table is that of Replace, and success answers 200 with the payload |
| Handler.DeleteUser | src/handler.ts:46-55 | the table is that of Remove; success answers 204 without data, and a failure is forwarded |
| Handler.HandleCreate | src/handler.ts:76 | validation with `id` optional, then createUser, then the error handler: the response and table are RespondCreate's |
| Handler.HandleRead | src/handler.ts:77 | fetch, then getUser: the response is RespondRead's and the table is untouched |
| Handler.HandleUpdate | src/handler.ts:78-84 | fetch, full validation, e-mail guard, updateUser: the response and table are RespondUpdate's |
| Handler.HandleDelete | src/handler.ts:85 | deleteUser then the error handler: the response and table are RespondDelete's |
| Handler.Handle | src/handler.ts:75-95 | any request: the route's chain, or the not-found fallback, then the error handler, exactly as Respond |
| HandlerProperties.CreateThenRead | src/handler.ts:22-44 | posting a well-formed user with a new id stores it and answers 201 with it; reading it back answers 200 with it |
| HandlerProperties.CreateExistingRejected | user-service/repositories/UserRepository.ts:65-68 | posting a user whose id is stored answers 400 and changes nothing |
| HandlerProperties.CreateAccepted | src/handler.ts:30-44 | an accepted payload whose user is new is stored, and the body with its id is answered 201 |
| HandlerProperties.CreateInvalidEmailAnswered | src/handler.test.ts:209-225 | creating with an element of `emails` that is not an address answers 400 'Invalid payload', lists 'Invalid email format' at path ["emails", i] for that index, and writes nothing |
| HandlerProperties.CreateRejectionLists | src/handler.test.ts:133-150 | a create whose payload fails the schema answers 400 'Invalid payload', writes nothing, and lists every issue with its message and serialised path |
| HandlerProperties.CreateAssignsFreshId | src/handler.ts:33-35 | a payload without an id gets the fresh id appended as its last key and is stored under it |
| HandlerProperties.DeleteTwice | src/handler.ts:46-55 | deleting answers 204 with only `status`, whether or not the user exists, so deleting twice succeeds twice |
| HandlerProperties.UpdateMissingUserIs404 | src/handler.ts:78-84 | updating an absent user answers 404 before the payload is looked at |
| HandlerProperties.UpdateInvalidPayloadRejected | src/handler.ts:78-84 | an update whose payload fails the full schema answers 400 with the issue list and writes nothing |
| HandlerProperties.UpdateDroppingEmailRejected | src/handler.ts:82 | sending a user back without one of its stored addresses answers 400 'Deleting an email address is not allowed' and writes nothing |
| HandlerProperties.UpdateKeepingEmailsAccepted | src/handler.ts:57-73 | a well-formed user that keeps every stored address replaces the stored one and is answered 200 |
| HandlerProperties.UpdateIdMismatchRejected | src/handler.ts:61-67 | a payload id other than the URL's answers 400 with the mismatch message and no issue list, and writes nothing |
| HandlerProperties.UnknownRouteIs404 | src/handler.ts:89-92 | a request matching no route answers 404 'Route not found' and changes nothing |
| HandlerProperties.StorageFailureIs500 | src/handler.ts:41-43 | a storage failure is answered 500 with its own message and changes nothing |
| HandlerProperties.OnlySuccessWrites | src/handler.ts:30-85 | whenever the table changes, the response is a 200, 201 or 204 success envelope |
| HandlerProperties.CreateTable | src/handler.ts:30-44 | a create either leaves the table as it was or adds the parsed user under an id that was absent |
| HandlerProperties.UpdateTable | src/handler.ts:57-73 | an update either leaves the table as it was or stores the parsed user under the URL's id |
| HandlerProperties.CreateKeepsStore | src/handler.ts:30-44 | with a UUID as fresh id, a create keeps every stored user well-formed and under its own id |
| HandlerProperties.UpdateKeepsStore | src/handler.ts:57-73 | an update keeps every stored user well-formed and under its own id |
| HandlerProperties.StoreInvariant | src/handler.ts:75-85 | whatever the request, a table of well-formed users under their own ids stays one |
| HandlerProperties.UpdateKeepsEmails | src/handler.ts:78-84 | an update that writes keeps every address the stored user had |
| HandlerProperties.EmailsOnlyGrow | src/handler.ts:75-85 | whatever the request, no user still stored afterwards has lost an address |

## Left out

- UUID, e-mail and date formats: the library's `.uuid()`, `.email()` and `.date()` checks are not visible. `Formats.IsUuid`, `Formats.IsEmail` and `Formats.IsDate` are labelled approximations: 8-4-4-4-12 hex digits; one `@`, a non-empty local part without spaces and a dotted domain; YYYY-MM-DD with real month lengths and leap years.
- Issue objects: issues carry code, message, path and unrecognised keys. The library's other fields (`validation`, `expected`, `received`, `minimum`, …) are not modelled, and neither is its generic message for a non-object body beyond "Expected object, received …". The position of `message` among an issue's keys is decided by the issue's code, which matches how every rule of this schema raises its issues (type issues take their message from the error map, every other check passes its own).
- TypeError messages: when `emails` cannot be read or iterated, the runtime's message text is given only approximately.
- Express routing details: Express matches paths case-insensitively by default (`/Users/abc` reaches the routes), while `Handler.Resolve` compares path segments exactly. URL decoding, trailing slashes, `HEAD`, errors raised while parsing the body, and the dropped body of a 204 are not modelled. A request is already a verb, path segments and a parsed body.
- Double responses: what Express does with a second response or a second `next` after one has been written is not modelled. Only the as-written stage members record such calls.
- Storage: the document service becomes a map. The order of keys in a stored item, the `ReturnValues` option on a put, and the service's own behaviour on failure are not modelled. A failure is an `AppError` parameter.
- Repository.Replace: answers the item now stored. The put in user-service/repositories/UserRepository.ts:94 asks for `ReturnValues: 'ALL_NEW'`, which the document service does not accept for a put (only `NONE` and `ALL_OLD`); if the service refuses it, every update is answered 500. The model abstracts from the option, so `HandlerProperties.UpdateKeepingEmailsAccepted` holds only under that abstraction.
- JSON numbers: `Json.Num` carries an integer. Fractional numbers, `NaN` and the infinities are not modelled; no schema key accepts a number, so only the "Expected …, received number" issues and truthiness see them.
- Duplicate keys: a JSON object with the same key twice reads the first occurrence in the model, while `JSON.parse` keeps the last one; a body that repeats a key may therefore be judged on a different value than at run time.
- Id generation: the fresh id for a create is a parameter; only the properties that need it require it to be a UUID.
- Timing: async/await and concurrency are not modelled; each request is one sequential pass.
- Glue: `user-service/handler.ts` and the context middleware are not part of this model. The repository and the fetched user are passed directly.
- The duplicate, non-strict user schema in `user-service/repositories/UserRepository.ts:19-44` is not used by any modelled stage and is not modelled.
- Message texts: the schema's messages are modelled as written ('A user must have at least 1 email', 'A user can have at most 3 emails'). Some route-level tests expect '… 1 email address' and '… 3 email addresses', which come from a schema revision that is not part of this model.
- HandlerProperties.StorageFailureIs500: holds for a create only when its payload is accepted, because validation runs before the write.

## Findings

| source | as written | input that shows it | evidently intended | confidence | as-written member | corrected member |
|---|---|---|---|---|---|---|
| user-service/middleware/validatePayloadMiddleware.ts:19-26 | on failure the error is forwarded but the stage does not return: the body is set to undefined and `next()` is called a second time | a request with no body | forward the error and stop | not executed | Middleware.ValidatePayloadAsWritten, Middleware.InvalidPayloadFallsThrough | Middleware.ValidatePayload |
| user-service/middleware/fetchUserMiddleware.ts:12-16 | a missing user is both forwarded as UserNotFoundError and answered 404 `{error}` by the stage itself | any id on an empty table | forward the error only, so the error handler answers `{status, message}` with 404 (src/handler.test.ts:40-46) | not executed | Middleware.FetchUserAsWritten, Middleware.MissingUserForwardedAndAnswered | Middleware.FetchUser |
| user-service/middleware/fetchUserMiddleware.ts:10 | a rejected read is not caught, so it is neither forwarded nor answered | a read that fails with 'Database error' | forward it with `next(error)` (src/middleware/fetchUserMiddleware.test.ts:35-44), answered 500 with its message (src/handler.test.ts:49-57) | not executed | Middleware.FetchUserAsWritten, Middleware.RejectedReadEscapes | Middleware.FetchUser |
