# node-express-starter: a verified model of the request core

This project models the decision logic of the Express starter service in Dafny:

- **The two error normalisers.**
  - `errorHandler`, the variant wired into the application.
  - `errorMiddleware`, the richer variant. It adds token errors, correlation ids, logging and a safe duplicate-key fallback.
- **The request validation pass.** It runs over body, query and params.
- **The Zod schemas that guard the user routes.**
- **The correlation-id middleware.**
- **The success-envelope builders.**
- **The 404 fallthrough.**
- **The user service and controller.** They work over a soft-deleting user collection.
- **Configuration defaulting** from the environment, with JavaScript `parseInt(…, 10) || default` semantics.
- **The console log line format.**

The error objects that reach the normalisers are a single record, `Errors.ErrorRecord`. It covers name, message, stack, code, statusCode, status, isOperational, errmsg, field errors, path and value. `Errors.NewAppError` is the `AppError` constructor.

Express calls are modelled as follows:

- A request is a class with a field for each part the middlewares reassign.
- A response is a class whose `sent` field holds the reply written, if any.
- `next` is the returned `NextCall` value: no call, `next()` or `next(err)`. Because a handler returns exactly one such value, `next` is called at most once by construction.

The normalisers do the following outside development:

- They test the error's shape with independent `if`s, so the last test that holds wins.
- This is specified once in `ErrorRules`, as the last applying rule of a list.
- Each method walks the chain step by step and is proved to produce that specified answer.

The duplicate-key value is extracted with `/(["'])(\\?.)*?\1/`. `QuotedValue` models that regex's lazy, backtracking search exactly. It proves that the match is the leftmost quoted span of the driver message.

The user collection is the class `UserStore.UserModel`:

- `docs` is a map from id to document; `order` is the insertion order.
- `Create` adds a document and `FindByIdAndUpdate` changes one in place.
- Deletion is an update that clears `active`, so nothing is ever removed.

## Model

| member | source | states |
|---|---|---|
| Errors.NewAppError | tests/appError.test.js:4-20 | keeps message and statusCode, marks the error operational, status "fail" for 4xx and "error" for 5xx |
| Errors.StatusClass | tests/appError.test.js:12-20 | status is "fail" exactly for codes 400..499, else "error" |
| Errors.DefaultStatusCode | src/middlewares/errorHandler.js:64 | a missing or zero statusCode becomes 500, any other code is kept; the result is never 0 |
| Errors.DefaultStatus | src/middlewares/errorHandler.js:65 | a missing or empty status becomes "error", any other status is kept |
| ErrorRules.WithDefaults | src/middlewares/error.middleware.js:92-93 | only statusCode and status change, to their defaulted values |
| ErrorRules.Apply | src/middlewares/error.middleware.js:110-139 | a translation overwrites statusCode and message and sets isOperational; status, name, code and stack are kept |
| ErrorRules.LastApplying | src/middlewares/error.middleware.js:105-139 | None exactly when no shape test holds; otherwise a rule whose test holds and after which no test holds |
| ErrorRules.LastApplyingAt | src/middlewares/error.middleware.js:105-139 | the rule at an index whose test holds, with none holding after it, is the one chosen |
| ErrorRules.TranslatedAt | src/middlewares/error.middleware.js:105-139 | when no helper throws, the answer is the translation of the last rule whose test holds |
| ErrorRules.Translated | src/middlewares/errorHandler.js:70-90 | None exactly when a helper that applies throws; status, name and stack are never recomputed; an untouched error when nothing applies; otherwise the last applying rule's translation |
| QuotedValue.CloseFromSucceedsIff | src/middlewares/error.middleware.js:16 | the lazy `(\\?.)*?\1` loop finds a closing quote exactly when one is reachable before a line terminator |
| QuotedValue.SpanStartsAtIff | src/middlewares/error.middleware.js:16 | a quoted span starts at a position exactly when a quote stands there and the lazy loop closes it |
| QuotedValue.FirstMatchFromLeftmost | src/middlewares/error.middleware.js:16 | the scan from a position fails exactly when no span starts at or after it, and otherwise returns a span at the leftmost start |
| QuotedValue.MatchIsLeftmostSpan | src/middlewares/error.middleware.js:16 | the match is absent exactly when the text holds no quoted span; otherwise it is a span starting leftmost |
| QuotedValue.CloseAtFirstQuote | src/middlewares/error.middleware.js:16 | without backslashes the loop closes at the first matching quote |
| QuotedValue.MatchWithoutEscapes | src/middlewares/error.middleware.js:16 | without backslashes the match runs from the first quote to the next quote of the same kind |
| QuotedValue.FirstMatchSkipsTo | src/middlewares/error.middleware.js:16 | positions without a quote are skipped by the search |
| ErrorMiddleware.DuplicateValue | src/middlewares/error.middleware.js:16-17 | 'unknown' exactly when errmsg is absent or holds no quoted span; otherwise the regex match |
| ErrorMiddleware.ErrorMiddleware | src/middlewares/error.middleware.js:91-143 | the logs written and the reply sent are those of the specified answer, and a throwing helper sends nothing |
| ErrorMiddleware.AnsweredByPriority | src/middlewares/error.middleware.js:105-139 | the answer is the if-chain read from the bottom: TokenExpiredError, then JsonWebTokenError, then ValidationError, then code 11000, then CastError, else the error untouched; none for a ValidationError without field errors |
| ErrorMiddleware.HelperThrowsIff | src/middlewares/error.middleware.js:25-28 | some applying helper throws exactly for a ValidationError without field errors |
| ErrorMiddleware.OperationalReply | src/middlewares/error.middleware.js:66-71 | outside development every operational answer is sent with its own defaulted code, status and message and the correlationId |
| ErrorMiddleware.DevelopmentAnswer | src/middlewares/error.middleware.js:52-60 | in development the defaulted code is sent with the status, the original message, the stack's value, the serialised error and the correlationId, with no translation |
| ErrorMiddleware.EveryErrorLoggedFirst | src/middlewares/error.middleware.js:96-100 | the first log entry is "<statusCode> - <message>" with stack and correlation id; a second "Unexpected error" entry appears exactly for a non-operational production answer |
| ErrorMiddleware.EveryEnvelopeCarriesCorrelationId | src/middlewares/error.middleware.js:65-81 | every reply carries the request's correlationId |
| ErrorMiddleware.AnswersUnlessValidationHelperThrows | src/middlewares/error.middleware.js:25-28 | the middleware answers unless, outside development, a ValidationError has no field errors (Object.values throws) |
| ErrorMiddleware.CastErrorAnswer | src/middlewares/error.middleware.js:7-10 | a CastError is answered 400 "Invalid <path>: <value>" with its original status |
| ErrorMiddleware.CastErrorWithoutStatus | src/middlewares/error.middleware.js:110-115 | a translated CastError without a status answers 400 with status "error" |
| ErrorMiddleware.DuplicateValueIsLeftmostSpan | src/middlewares/error.middleware.js:15-20 | the duplicate value is the leftmost quoted span of errmsg, and 'unknown' exactly when there is none |
| ErrorMiddleware.DuplicateKeyAnswer | src/middlewares/error.middleware.js:116-121 | code 11000 answers 400 "Duplicate field value: <v>. Please use another value." unless a later name test overrides it |
| ErrorMiddleware.LastRuleWins | src/middlewares/error.middleware.js:105-121 | a CastError that also has code 11000 is answered as a duplicate key |
| ErrorMiddleware.ValidationErrorAnswer | src/middlewares/error.middleware.js:122-127 | a ValidationError answers 400 "Invalid input data. " followed by the field messages joined by ". " |
| ErrorMiddleware.ValidationMessageNamesEachField | src/middlewares/error.middleware.js:25-28 | the validation message contains every field message |
| ErrorMiddleware.TokenErrorAnswers | src/middlewares/error.middleware.js:34-47 | JsonWebTokenError and TokenExpiredError answer 401 with their fixed messages |
| ErrorMiddleware.UnrecognisedErrorAnswer | src/middlewares/error.middleware.js:65-81 | an unrecognised error is answered with its own code and message when operational, else 500 "Something went wrong!" with status "error" |
| ErrorHandler.HandleDuplicateKeyError | src/middlewares/errorHandler.js:15-19 | throws (None) exactly when errmsg is absent or holds no quoted span; otherwise 400 |
| ErrorHandler.ErrorHandler | src/middlewares/errorHandler.js:63-94 | the logs written and the reply sent are those of the specified answer; nothing is sent when a helper throws |
| ErrorHandler.AnsweredByPriority | src/middlewares/errorHandler.js:70-90 | the answer is the if-chain read from the bottom: ValidationError, then code 11000, then CastError, else the error untouched; none when the applying helper throws |
| ErrorHandler.HelperThrowsIff | src/middlewares/errorHandler.js:15-28 | some applying helper throws exactly for a duplicate key without a quoted value or a ValidationError without field errors |
| ErrorHandler.ThrowsIff | src/middlewares/errorHandler.js:79-90 | outside development the handler throws exactly on a duplicate key without a quoted value or a ValidationError without field errors |
| ErrorHandler.DevelopmentAnswer | src/middlewares/errorHandler.js:33-40 | in development the defaulted code is sent with the status, the serialised error, the message and the stack's value, with nothing logged and no correlationId field |
| ErrorHandler.OperationalReply | src/middlewares/errorHandler.js:45-50 | outside development an operational answer is sent with its own defaulted code, status and message only, nothing logged and no correlationId field |
| ErrorHandler.LoggedIffUnexpected | src/middlewares/errorHandler.js:45-58 | one "ERROR" entry is logged exactly for a non-operational production answer, which is 500 "Something went wrong!" |
| ErrorHandler.DuplicateKeyAnswer | src/middlewares/errorHandler.js:79-84 | code 11000 with a quoted value answers 400 with the duplicate-value message |
| ErrorHandler.TokenErrorsUntranslated | src/middlewares/errorHandler.js:73-92 | token errors are not translated; a non-operational one answers 500 |
| ErrorVariants.SameAnswerOutsideTokensAndMissingQuotes | src/middlewares/errorHandler.js:63-94 | the two normalisers settle on the same error, except for token errors and duplicate keys without a quoted value |
| ErrorVariants.SameReplyOutsideTokensAndMissingQuotes | src/middlewares/error.middleware.js:52-81 | in either environment, outside token errors and duplicate keys without a quoted value, the middleware sends exactly the handler's reply with the correlationId added to the body |
| ErrorVariants.MissingQuoteDiverges | src/middlewares/errorHandler.js:16 | without a quoted value the middleware answers 400 with 'unknown' while the handler throws |
| ErrorVariants.TokenErrorsDiverge | src/middlewares/error.middleware.js:128-139 | a non-operational token error gets 401 from the middleware and 500 from the handler |
| Logging.CorrelationPrefix | src/config/logger.js:11 | the prefix is "[id] " for a truthy correlation id and empty otherwise |
| Logging.LineText | src/config/logger.js:12 | the stack when one is present, else the message |
| Logging.ConsoleLine | src/config/logger.js:10-13 | the line ends with the text; without a correlation id it is timestamp, " [", level, "]: " and the text |
| Logging.HeadBrackets | src/config/logger.js:11-12 | the head of a line has one '[' for the level and one more exactly for a truthy correlation id |
| Logging.OneBracketWithoutCorrelation | src/config/logger.js:11-12 | with no correlation id the level is the only bracketed segment before the text |
| Validate.FailureText | src/middlewares/validate.js:21 | the issue messages joined by ", " when there are any, else the thrown message |
| Validate.ValidationFailure | src/middlewares/validate.js:22 | a 400 operational "fail" error whose message is "Validation error: " and the failure text |
| Validate.Validate | src/middlewares/validate.js:8-24 | the request sections and the next call are those of the specified pass |
| Validate.AllParsed | src/middlewares/validate.js:10-19 | next() exactly when every present section parses, each section then replaced by its parsed value; next is always called |
| Validate.FirstFailureStops | src/middlewares/validate.js:10-22 | on failure, earlier sections are replaced and the failing and later ones keep their values; next gets a 400 error |
| Validate.FailureMessage | src/middlewares/validate.js:20-22 | the error names the failure of the first failing section |
| Validate.AbsentSectionUntouched | src/middlewares/validate.js:10-18 | a section without a schema is never changed |
| Validate.EmptySchema | src/middlewares/validate.js:8-19 | an empty schema leaves the request untouched and calls next() |
| Validate.FailureNamesEachIssue | src/middlewares/validate.js:21-22 | the message contains every issue message |
| UserValidation.Hex | src/validations/user.validation.js:6 | the hex rendering of bytes has two hex digits per byte |
| UserValidation.HexIdIsObjectId | src/validations/user.validation.js:6 | the hex rendering of any 12-byte id passes the ObjectId check |
| UserValidation.BasicPlaneLength | src/validations/user.validation.js:22-23 | Zod's UTF-16 length equals the character count for basic-plane text |
| UserValidation.LengthIssues | src/validations/user.validation.js:22-23 | no issue exactly when the UTF-16 length lies in 1..100 |
| UserValidation.IdIssues | src/validations/user.validation.js:11 | no issue exactly when the value is a 24-character hexadecimal string |
| UserValidation.ShapeIssuesEmptyIff | src/validations/user.validation.js:17-30 | an object has no issues exactly when every declared key's check passes |
| UserValidation.ShapeIssuesAppend | src/validations/user.validation.js:17-30 | the issues of a shape are those of its keys in declaration order |
| UserValidation.ParsedStripsUnknownKeys | src/validations/user.validation.js:17 | a parsed object keeps exactly its declared keys, with their values |
| UserValidation.CreateBodyAcceptedIff | src/validations/user.validation.js:16-31 | a create body is accepted exactly with a 1..100-long name, a valid email and an optional role of 'user' or 'admin' |
| UserValidation.UpdateBodyAcceptedIff | src/validations/user.validation.js:36-42 | an update body is accepted exactly when each present field is valid, and an empty body is accepted |
| UserValidation.UpdateNamePasses | src/validations/user.validation.js:38 | an update name passes exactly when absent or a string of UTF-16 length 1..100 |
| UserValidation.UpdateEmailPasses | src/validations/user.validation.js:39 | an update email passes exactly when absent or a string in email format |
| UserValidation.RolePasses | src/validations/user.validation.js:40 | a role passes exactly when absent, "user" or "admin" |
| UserValidation.ActivePasses | src/validations/user.validation.js:41 | active passes exactly when absent or a boolean |
| UserValidation.IdParamAcceptedIff | src/validations/user.validation.js:43-55 | update and get let params through exactly when id passes the ObjectId check |
| UserValidation.EmptyNameBadEmailIssues | src/validations/user.validation.js:18-28 | an empty name and a bad email give both custom messages, in order |
| UserValidation.EveryViolationReported | src/validations/user.validation.js:16-31 | such a body reaches next as "Validation error: Name is required, Invalid email address" |
| UserValidation.BothViolationsMessage | src/middlewares/validate.js:21-22 | the issue messages are joined by ", " behind "Validation error: " |
| CorrelationId.ChooseCorrelationId | src/middlewares/correlationId.js:10-13 | a truthy x-correlation-id wins, then a truthy x-request-id, then the generated id |
| CorrelationId.ChosenIdNonEmpty | src/middlewares/correlationId.js:13 | the chosen id is never empty |
| CorrelationId.EchoedIdIsKept | src/middlewares/correlationId.js:10 | a downstream hop that receives the echoed id in x-correlation-id keeps it, whatever id it would generate |
| CorrelationId.FreshOnlyWithoutHeaders | src/middlewares/correlationId.js:10-13 | a different id than the generated one means a header supplied it |
| CorrelationId.CorrelationId | src/middlewares/correlationId.js:8-25 | the chosen id is stored on the request and its logger and echoed in x-correlation-id; next() is called |
| ApiResponse.Success | src/utils/apiResponse.js:13-24 | code and message default to 200 and 'Success'; status is 'success'; data appears exactly when not null; no other keys |
| ApiResponse.SuccessWithPagination | src/utils/apiResponse.js:35-43 | results is the length of data; data and pagination are passed through |
| ApiResponse.NoContent | src/utils/apiResponse.js:61-63 | 204 with an empty body |
| ApiResponse.SuccessDefaults | src/utils/apiResponse.js:13-24 | with no arguments the reply is 200 {status: 'success', message: 'Success'} |
| ApiResponse.CreatedIsSuccess201 | src/utils/apiResponse.js:52-54 | created is a 201 success with 'Resource created successfully' as its default message |
| ApiResponse.EnvelopesAreSuccesses | src/utils/apiResponse.js:13-63 | every JSON envelope has status 'success', and noContent has no body field |
| NotFound.NotFound | src/middlewares/notFound.js:6-8 | always next(err) with a 404 "fail" operational error naming the URL |
| NotFound.UnmatchedRouteAnswers404 | tests/app.test.js:14-20 | an unmatched route is answered 404 with status 'fail' by the wired normaliser |
| NotFound.UnmatchedRouteAnswers404WithCorrelationId | src/middlewares/notFound.js:7 | the richer normaliser answers the same, carrying the correlation id |
| Config.ParseIntOr | src/config/index.js:7 | a non-zero parse is kept; NaN and zero give the fallback |
| Config.StringOr | src/config/index.js:6 | a non-empty variable is used, else the fallback |
| Config.DecimalRoundTrip | src/config/index.js:7 | the decimal digits of a number read back as that number |
| Config.ParseIntOfDecimal | src/config/index.js:7 | parseInt reads back any integer written in decimal, whatever non-digit text follows |
| Config.Defaults | src/config/index.js:5-14 | with no variables every entry takes its default, windowMs 900000 |
| Config.PortRule | src/config/index.js:7 | the port is the leading non-zero integer of PORT, else 3000 |
| Config.EnvRule | src/config/index.js:6 | env is 'development' exactly when NODE_ENV is unset, empty or 'development' |
| UserStore.MissingRequired | src/services/userService.js:40-43 | no required message exactly when name and email are both given |
| UserStore.UserModel.constructor | src/services/userService.js:1 | the `User` collection the service imports starts empty and valid |
| UserStore.UserModel.Find | src/services/userService.js:13-16 | exactly the active documents, as many as there are active ids |
| UserStore.UserModel.FindById | src/services/userService.js:24-25 | a cast error exactly for a malformed id; otherwise the document stored under the id, in any case of its hex digits, whatever its active flag, and None when absent |
| UserStore.CanonicalIdKeepsObjectId | src/validations/user.validation.js:6 | lower-casing an id is idempotent and keeps it a valid ObjectId, and only valid ones |
| UserStore.HexIdIsCanonical | src/services/userService.js:40-43 | the lower-case hex ids the driver generates are already canonical |
| UserStore.SpellingsFindSameDocument | src/services/userService.js:24-25 | two spellings of an id that differ only in letter case find the same document or fail alike |
| UserStore.UpperCaseSpellingFindsStored | src/controllers/userController.js:25-33 | a user stored under a lower-case id is found under its upper-case spelling |
| UserStore.UserModel.Create | src/services/userService.js:40-43 | a successful create adds one document and leaves the rest unchanged; a failure changes nothing; the collection stays valid |
| UserStore.UserModel.FindByIdAndUpdate | src/services/userService.js:52-56 | the document found under the id, in any case of its hex digits, is replaced by its merge with the patch; otherwise nothing changes; the collection stays valid |
| UserStore.ActiveInOrderExact | src/services/userService.js:13-16 | the listing holds exactly the active documents |
| UserStore.ActiveInOrderCount | src/controllers/userController.js:9-12 | the listing's length is the number of active documents |
| UserStore.ActiveIdsInCount | src/services/userService.js:13-16 | the filter over the insertion order counts each active id once |
| UserStore.SoftDeleteIdempotent | src/services/userService.js:69-74 | deleting twice equals deleting once, and only active is cleared |
| UserStore.SoftDeleteHidesFromListing | src/services/userService.js:63-74 | a deleted record leaves the listing but stays in the store, and an update can bring it back |
| UserStore.MergeKeepsUnsupplied | src/services/userService.js:52-56 | fields the patch does not supply are kept, and so is the id |
| UserStore.CreatedUserFields | src/services/userService.js:40-43 | the created record carries the supplied fields, role 'user' and active by default |
| UserStore.DuplicateEmailRejected | src/services/userService.js:40-43 | a create whose email another record holds fails with a duplicate-key error |
| UserStore.DuplicateKeyMessageQuotesEmail | src/middlewares/errorHandler.js:16 | the driver message's first quoted span is the quoted email |
| UserService.NoUserError | src/services/userService.js:27 | a 404 "fail" operational "No user found with that ID" |
| UserService.UserService.GetAllUsers | src/services/userService.js:13-16 | exactly the active users |
| UserService.UserService.GetUserById | src/services/userService.js:24-30 | a cast error for a malformed id, 404 for an absent one, otherwise the user whatever its active flag |
| UserService.UserService.CreateUser | src/services/userService.js:40-43 | adds the created record, or fails leaving the store unchanged |
| UserService.UserService.UpdateUser | src/services/userService.js:52-61 | returns the merged record and stores it; 404 or the thrown error leave the store unchanged |
| UserService.UserService.DeleteUser | src/services/userService.js:69-74 | clears active and keeps the record; fails only for a malformed or absent id |
| UserController.UsersReply | src/controllers/userController.js:10-14 | 200 with status 'success' and results equal to the number of users |
| UserController.GetAllUsers | src/controllers/userController.js:7-18 | answers 200 with the active users, results being their count |
| UserController.GetUser | src/controllers/userController.js:23-36 | 200 with the user whatever its active flag; 404 or the cast error via next with no reply |
| UserController.CreateUser | src/controllers/userController.js:41-51 | 201 with the created user, or the thrown error via next with no reply and no change |
| UserController.UpdateUser | src/controllers/userController.js:56-72 | 200 with the merged user; 404 or the thrown error via next with no reply and no change |
| UserController.DeleteUser | src/controllers/userController.js:77-90 | soft delete answered 204; 404 only when no record has the id |
| UserController.DuplicateEmailAnswer | src/middlewares/errorHandler.js:79-84 | a create with a taken email is answered 400 'Duplicate field value: "<email>". Please use another value.' |
| UserController.MalformedIdAnswer | src/middlewares/errorHandler.js:73-78 | a malformed id is answered 400 "Invalid _id: <id>" |

## Left out

- Process lifecycle and framework wiring are not modelled. This covers `src/server.js`, `src/app.js`, the routers, helmet, CORS, morgan, body parsing and the rate limiter's counting. All are I/O or external libraries.
- The database connection in `src/config/db.js` is network I/O and is left out.
- The Mongoose User model file is not part of this model. Its behaviour is approximated:
  - required `name` and `email` are checked concretely;
  - the unique email index gives the 11000 error;
  - every other schema validator is the abstract `fieldErrors`;
  - timestamps are not modelled;
  - ids are 24-digit hexadecimal strings, read in either letter case and stored in lower case, so the 12-byte-string cast is not modelled;
  - a query returns documents in insertion order.
- UserStore.ValidationErrorOf: Mongoose merges all validator errors into one ValidationError. The model reports the missing required fields first and the other validators only when none is missing. The message is approximated as the field messages joined by ", ".
- UserStore.DuplicateKeyMessage: the driver's E11000 message is modelled in its usual form with the namespace `collection`. The exact text depends on the server version.
- The logger `../utils/logger.js` imported by `errorHandler.js` is not part of this model. Its entry is modelled as a message, a stack and a correlation id. The "ERROR 💥" entry of `ErrorHandler.SendErrorProd` logs the `{ ...err }` copy, so it has no stack.
- Winston transports, file rotation, test-mode silencing and `createRequestLogger` are library calls. Only `consoleFormat` is modelled.
- Logging.ConsoleLine: the timestamp is an opaque string. `Text.Render` renders an absent one as "undefined".
- UUID v7 generation is the parameter `generated`.
- Zod's email check is the parameter `isEmail`.
- Zod's `ZodError.message` is a JSON dump of the issues and is not modelled. A parse failure carries its issue list and an empty message.
- Zod's default messages use Zod 3 wording.
- The `{...err}` spread copies only own enumerable fields. The model tracks the fields the normalisers read, and `Errors.ErrorJson` serialises only statusCode, status and isOperational.
- JSON numbers are integers; floating point is not modelled. `Config.ParseInt` returns an exact integer, whereas JavaScript's `parseInt` returns a double that rounds values above 2^53.
- When a normaliser helper throws, the model sends nothing. Express then passes the thrown error to its own final handler, which answers 500; that handler is not modelled.
- Errors.NewAppError, UserStore.CastErrorFor, UserStore.DuplicateKeyError and UserStore.ValidationErrorOf build errors without a stack trace, whereas a JavaScript `Error` always has one. The runtime trace is not modelled. So for these errors the model's development reply has no `stack` key, and `Logging.LineText` prints the message where the program prints the trace.
- UserStore.UpdateResult answers "no document" for an absent id before it runs the schema validators. Mongoose's `runValidators` checks the update even when nothing matches. This matters only for an update that passes the route schema but fails a model validator.
- A 204 reply from `deleteUser` keeps, in the model, the JSON body that `res.status(204).json(...)` is called with (`src/controllers/userController.js:83-86`). Express drops that body on the wire, which the model does not capture.
- UserController.GetUser, UserController.UpdateUser and UserController.DeleteUser require `req.params.id` to be a string. The routes put the ObjectId params check in front of them.
- `src/utils/catchAsync.js`, `src/docs/swagger.js`, the re-export `src/routes/validations/userValidation.js` and `jest.config.js` are plumbing or static data and are left out.

Where the written description of the service and the code differ, the model follows the code:

- A get by id returns the record whatever its `active` flag (`src/services/userService.js:24-30`, `src/controllers/userController.js:23-36`).
- A second delete of the same id answers 204 again, not 404: the soft-deleted record is still found by id (`src/controllers/userController.js:79-86`).
