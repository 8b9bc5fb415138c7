# User registration core, modelled in Dafny

This project models the registration pipeline of ChocoAPI, a Rust web API:

- the `InsertableUserBuilder` that collects the fields of a new account and validates them all at once (`users.dfy`);
- the `register` handler's loop that routes each multipart form part into that builder or into a map of routing errors, then lets the builder's verdict decide between creating the user and answering 422 (`registration.dfy`, with the properties in `registration_properties.dfy`);
- the environment-name parsing and the database SSL-mode choice of the settings code (`configuration.dfy`).

`errors.dfy` holds the field-to-messages error map. The helpers `add_error` and `merge_errors` of `crate::erro` are not part of this model:
- `Errors.AddError` follows what every call site relies on: it appends the message to the key's list and creates the list when it is missing.
- `Errors.MergeErrors` is an assumed definition of `merge_errors`: the union of the keys, with the left operand's messages first. The handler never uses it directly. `Register` calls whatever merge function its `Services` record carries. So only the lemmas that require `svc.mergeErrors == MergeErrors` depend on this assumed behaviour. They say so in their doc comments.

Collaborators that the model cannot see are the function-valued fields of `Registration.Services`:
- reading a part's body as text or bytes;
- the email, image and user repositories;
- confirmation-token issuance.

Each one is treated as a function of its arguments that may fail. A stream failure is a `Broken` item in the input sequence.

The routing errors are consulted only when `build()` fails (`src/routes/register.rs:104-106`). On a successful build they are dropped and the user is created, even when some parts had unknown names. `SuccessfulBuildDropsRoutingErrors` and `UnknownFieldTolerated` state this.

## Model

| member | source | states |
|---|---|---|
| `Users.InsertableUserBuilder.New` | src/models/users.rs:69-76 | A fresh builder has an empty username and password, and no full name, picture id or email id. |
| `Users.InsertableUserBuilder.WithUsername` | src/models/users.rs:80-83 | Sets the username to the given text. The other four fields are unchanged. |
| `Users.InsertableUserBuilder.WithFullName` | src/models/users.rs:86-89 | Sets the full name to `Some` of the given text. The other four fields are unchanged. |
| `Users.InsertableUserBuilder.WithPassword` | src/models/users.rs:92-95 | Stores the given password verbatim, without hashing. The other four fields are unchanged. |
| `Users.InsertableUserBuilder.WithEmailId` | src/models/users.rs:99-102 | Sets the email id to `Some(id)`. The other four fields are unchanged. |
| `Users.InsertableUserBuilder.WithProfilePicId` | src/models/users.rs:105-108 | Sets the picture id to `Some(id)`. The other four fields are unchanged. |
| `Users.InsertableUserBuilder.Build` | src/models/users.rs:113-139 | Succeeds iff the username is non-empty, the password is non-empty and an email id is set. On success, each getter (users.rs:31-56) returns the builder's field, with the email id unwrapped. On failure, the map has exactly the failed keys among `username`, `password` and `email`, each mapped to `["Missing field"]`. The unwrap cannot fail. |
| `Users.DefaultBuildFails` | src/models/users.rs:142-146 | Building the default builder fails with exactly three entries: `username`, `password` and `email`. |
| `Users.CompleteBuilderBuilds` | src/models/users.rs:128-135 | Any builder given a non-empty username, a non-empty password and an email id builds a user holding exactly those values and the builder's optional fields. |
| `Users.OptionalFieldsNeverFail` | src/models/users.rs:110-127 | Setting the full name or the picture id changes neither whether the build succeeds nor the error map. |
| `Users.LastSetterCallWins` | src/models/users.rs:79-108 | Calling a setter twice is the same as calling it once with the second value. |
| `Errors.AddError` | src/routes/register.rs:95 | The key set grows by the given field. That field's list gains the message at its end. Every other entry is unchanged. |
| `Errors.MergeErrors` | src/routes/register.rs:106 | Assumed behaviour of `merge_errors`: the keys are the union, and each list is the left map's messages followed by the right map's. |
| `Errors.MergeIdentity` | src/routes/register.rs:106 | Assumed behaviour: the empty map is a left and right identity of the merge. |
| `Errors.MergeAssociative` | src/routes/register.rs:106 | Assumed behaviour: the merge is associative. |
| `Errors.MergeCommutesOnDisjointKeys` | src/routes/register.rs:106 | Assumed behaviour: for maps with disjoint keys, the order of the operands does not matter. |
| `Errors.MergeKeepsAllMessages` | src/routes/register.rs:106 | Assumed behaviour: a merged list is the left map's messages as a prefix and the right map's as the remainder. |
| `Errors.AddErrorIsMergeWithSingleton` | src/routes/register.rs:95 | Adding one error equals merging with a one-entry map. This links the assumed merge to `add_error`. |
| `Configuration.ToLower` | src/configuration.rs:126 | The result has the input's length, lowers each ASCII capital letter, keeps every other character, and is itself lower-case. |
| `Configuration.Environment.AsStr` | src/configuration.rs:114-119 | Each environment's name is non-empty and already lower-case. |
| `Configuration.Environment.TryFrom` | src/configuration.rs:125-133 | Succeeds iff the lower-cased text is `local` or `production`. On success, the result's name is that lower-cased text. Otherwise the error is "<lower-cased text> is not a supported environment. Use either `local` or `production`". |
| `Configuration.GetEnvironment` | src/configuration.rs:99-103 | An unset variable gives `Local`. A set variable succeeds exactly when `TryFrom` does and selects the environment its lower-cased value names. A failure is `TryFrom`'s error wrapped in "failed to parse APP_ENVIRONMENT". |
| `Configuration.AsStrRoundTrip` | src/configuration.rs:114-128 | `TryFrom(e.AsStr()) == Ok(e)` for both environments. |
| `Configuration.AsStrInjective` | src/configuration.rs:115-118 | Distinct environments have distinct names. |
| `Configuration.TryFromIgnoresCase` | src/configuration.rs:126-128 | A text and its lower-case form parse to the same result. |
| `Configuration.TryFromExactlyCaseVariants` | src/configuration.rs:125-131 | `TryFrom(s) == Ok(e)` iff `s` lower-cases to `e`'s name. |
| `Configuration.MixedCaseSpellings` | src/configuration.rs:126-131 | "local", "LOCAL" and "Local" give `Local`. "PRODUCTION" and "Production" give `Production`. "staging" is rejected. |
| `Configuration.GetEnvironmentRoundTrip` | src/configuration.rs:99-103 | APP_ENVIRONMENT set to an environment's name selects that environment. |
| `Configuration.DatabaseSettings.SslMode` | src/configuration.rs:53-57 | The mode is `Require` iff `require_ssl` is set, and `Prefer` otherwise. |
| `Registration.ParseText` | src/routes/register.rs:20-37 | The text parsers succeed exactly when the body reads as text, and yield that text. A failure is the cause wrapped in the parser's context message. |
| `Registration.ParseUsername` | src/routes/register.rs:20-22 | Succeeds exactly when the body reads as text, and yields that text. Otherwise it fails with the cause under the context "failed to parse form username". |
| `Registration.ParsePassword` | src/routes/register.rs:24-26 | Succeeds exactly when the body reads as text, and yields that text. Otherwise it fails with the cause under the context "failed to parse form password". |
| `Registration.ParseFullName` | src/routes/register.rs:28-33 | Succeeds exactly when the body reads as text, and yields that text. Otherwise it fails with the cause under the context "failed to parse form full name". |
| `Registration.ParseEmail` | src/routes/register.rs:35-37 | Succeeds exactly when the body reads as text, and yields that text. Otherwise it fails with the cause under the context "failed to parse form email". |
| `Registration.ParseImageContentType` | src/routes/register.rs:39-44 | Succeeds exactly when the part declares a content type, and yields it. Otherwise the error is "failed to fetch image content type". |
| `Registration.ParseImage` | src/routes/register.rs:46-48 | Succeeds exactly when the body can be read, and yields its bytes. A failure is the cause wrapped in "failed to parse form image". |
| `Registration.FieldNamed` | src/routes/register.rs:68-93 | Maps a part name to the field whose name it is. It returns `None` exactly when no field has that name. |
| `Registration.RoutePart` | src/routes/register.rs:67-98 | A nameless part changes nothing. An unknown name adds "Invalid field" under that exact name and leaves the builder unchanged. A known name succeeds exactly when its parse-and-create chain does. In that case the matching builder field holds what that chain delivered (for email and profile_pic, the repository's id), every other field and the error map are unchanged, and any failure is the chain's error. |
| `Registration.Delivered` | src/routes/register.rs:69-93 | What a part delivers to each field. `username` and `password` deliver the part's text. `full_name` delivers `Some` of the text. `email` delivers the id the email repository returns for the text. `profile_pic` delivers the id the image repository returns for the content type and bytes. Each succeeds exactly when every step of its chain does. Each failing step gives its own error: an unreadable text body gives the cause under that field's "failed to parse form …" context; a missing content type gives "failed to fetch image content type"; unreadable image bytes give the cause under "failed to parse form image"; a repository error is returned as is. |
| `Registration.RouteItems` | src/routes/register.rs:62-100 | The loop as a function: routes the items in order and stops at the first failure. A broken first item fails with the cause under "failed to parse multipart form data". A first part whose routing fails gives that error. A successful run contains no stream failure and never removes a routing-error key. |
| `Registration.ConfirmationSubject` | src/routes/register.rs:119 | The token key is "confirmation_tokens:" followed by the username. |
| `Registration.SendUser` | src/routes/register.rs:110-127 | A user-creation failure is returned as is. Success needs the user to be stored and a token issued under the user's confirmation subject for 600 seconds. The response is 201 with the stored user. A token-issuance failure after a successful store is returned as is. |
| `Registration.Register` | src/routes/register.rs:59-107 | The loop's result equals `RegisterOutcome`: parts are routed in arrival order, the first failure aborts, and then `build()` decides. On success the user is sent. On failure the answer is 422 with `mergeErrors(routing errors, missing fields)`. |
| `Registration.RegisterOutcome` | src/routes/register.rs:59-107 | The whole request as a function. A routing failure is the request's error, unchanged. Success requires a stream without failures, successful routing and a successful build, and answers 201. Successful routing followed by a failed build is always a 422 `UnprocessableEntity`. |
| `RegistrationProperties.RouteConcat` | src/routes/register.rs:62-100 | Routing `a + b` equals routing `a` and then `b` from the resulting state. An error in `a` is final. |
| `RegistrationProperties.AbortIgnoresLaterParts` | src/routes/register.rs:62-66 | Once routing has failed, the parts after the failure are never looked at. Starting from the initial state, the request fails with that routing error. |
| `RegistrationProperties.FieldUntouched` | src/routes/register.rs:62-100 | Parts that do not name a field leave that builder field as it was. |
| `RegistrationProperties.LastPartWins` | src/routes/register.rs:62-100 | When a field is named repeatedly, the builder ends up holding what the last part naming it delivered. |
| `RegistrationProperties.RoutingErrorsAreUnknownNames` | src/routes/register.rs:94-96 | The routing error keys are exactly the unknown part names, and the only message recorded is "Invalid field". |
| `RegistrationProperties.SuccessfulBuildDropsRoutingErrors` | src/routes/register.rs:104-105 | If the build succeeds, the outcome is `SendUser` of the built user, whatever routing errors were recorded. |
| `RegistrationProperties.FailedBuildIsUnprocessable` | src/routes/register.rs:106 | If the build fails, the outcome is 422 with the routing errors merged before the builder's errors. |
| `RegistrationProperties.UnknownFieldTolerated` | src/routes/register.rs:94-105 | For username, password and email plus a `foo` part, "Invalid field" is recorded under `foo`, and the user is still created. |
| `RegistrationProperties.ValidRegistration` | tests/api/register.rs:9-37 | The end-to-end test's form reaches user creation with username "johndoe", full name "John Doe", password "12345" and the created email id. |
| `RegistrationProperties.MissingUsernameRejected` | tests/api/register.rs:54-77 | A password and an email without a username give 422 with `mergeErrors({}, {"username": ["Missing field"]})`. |
| `RegistrationProperties.MissingUsernameBody` | src/routes/register.rs:106 | Assumed merge behaviour: the 422 body for that form is exactly `{"username": ["Missing field"]}`. |
| `RegistrationProperties.UnprocessableBodyKeys` | src/routes/register.rs:104-106 | Assumed merge behaviour: a 422 body's keys are exactly the unknown part names plus the missing required fields. |
| `RegistrationProperties.ConfirmationSubjectInjective` | src/routes/register.rs:119 | Distinct usernames get distinct token keys. |

## Left out

- Token generation in `src/tokens.rs` (32 random bytes from the OS, Crockford base-32 encoding) and its Redis `SET EX` storage are I/O and randomness. They are represented only by the `issueToken(subject, seconds)` collaborator, whose arguments are modelled.
- Async execution, axum's multipart streaming and body decoding, `tracing::warn!`, and the conversion of `AppError` into an HTTP response are not modelled. Reading a body is a collaborator. The variant that carries an error report is called `Internal` here, because its real name in `crate::erro` is not visible.
- The email, image and user repositories do database I/O and are collaborators. They are modelled as deterministic functions that may fail. Records created before a later failure are not rolled back in the source, and that is not modelled either.
- `crate::erro` is not part of this model. `add_error` is modelled from its call sites. `merge_errors` is abstract inside `Register` and follows an assumed definition in the lemmas that say so.
- Configuration file and environment loading (`extract`), `get_redis_client`, and the rest of the `PgConnectOptions` construction in `without_db` and `with_db` are library calls. Only the SSL-mode choice is modelled.
- Configuration.ToLower: lowers ASCII letters only. Rust's `to_lowercase` also lowers non-ASCII letters. Some of those change the result, for example a dotted capital I.
- Configuration.GetEnvironment: receives the variable's value as an `Option`. `None` stands for both an unset variable and a non-Unicode one, which `std::env::var` also treats alike here.
- Password hashing, sending the confirmation email and assigning permissions are unimplemented in the source, and no behaviour is invented for them.
