# E-Buddy user service and client, modelled in Dafny

This project models the behaviour of the E-Buddy home assignment: a user
service (an Express API over a Firestore `USERS` collection, with a bearer
token middleware), its older mock lineage of Firebase HTTP functions, and
the Next.js/Redux client that talks to it.

- `wrappers.dfy`, `strings.dfy`: `Option`/`Result`, and the JavaScript string
  operations the code uses (`!s` on a string, `startsWith`, `split`,
  `Number.prototype.toString`), with `indexOf` and `join` as the operations
  `split` is stated with.
- `user_entity.dfy`: the stored user document, the user record (document plus
  key as `id`), the password-free record, update requests, `role || "user"`.
- `tokens.dfy`: JSON Web Tokens as values: `{ uid, email, role }` claims,
  issue and expiry times, algorithm and key; signing and verification.
- `user_collection.dfy`: the repository, a class over a map of documents and
  the order in which a full read lists them.
- `api.dfy`: the controller's five handlers, as methods that return the
  status code and the JSON body.
- `auth_middleware.dfy`: the bearer-token middleware and the role gate.
- `mock_functions.dfy`: the mock HTTP functions over an in-memory list of
  users that is updated in place.
- `client_types.dfy`, `actions.dfy`, `reducers.dfy`: the client's user
  shape, its fifteen action creators and its `userReducer`.
- `auth_slice.dfy`: the `auth` slice, as a class with one method per case reducer.
- `email_pattern.dfy`, `form_rules.dfy`, `login_page.dfy`, `register_page.dfy`,
  `home_page.dfy`: the client's form validation (including a one-pass decision
  procedure for the unanchored regular expression `\S+@\S+\.\S+`), the
  registration request, and the profile-update guards and payload.

The current time, the key the store picks for a new document, the
`JWT_SECRET` setting, the token stored in the browser and the two token
verifiers (Firebase's and the HS256 JWT one) are parameters.

## Model

| member | source | states |
|---|---|---|
| Strings.Falsy | apps/backend-repo/src/controller/api.ts:223 | `!s` on an optional string: absent or empty |
| Strings.StartsWith | apps/backend-repo/src/middleware/authMiddleware.ts:39 | `startsWith`: the prefix occurs at index 0 |
| Strings.IndexOfFrom | apps/backend-repo/src/middleware/authMiddleware.ts:47 | the first occurrence of the separator at or after a position, or none when there is none |
| Strings.IndexOf | apps/backend-repo/src/middleware/authMiddleware.ts:47 | `indexOf`: the first occurrence, and none exactly when the pattern occurs nowhere |
| Strings.Split | apps/backend-repo/src/middleware/authMiddleware.ts:47 | `split` always yields at least one piece |
| Strings.JoinSplit | apps/backend-repo/src/middleware/authMiddleware.ts:47 | joining the pieces of a split with the same separator gives back the original string |
| Strings.SplitPiecesFree | apps/backend-repo/src/middleware/authMiddleware.ts:47 | no piece of a split contains the separator |
| Strings.FirstPiece | apps/backend-repo/src/middleware/authMiddleware.ts:47 | the first piece is the prefix up to the first occurrence of the separator (no occurrence starts inside it), or the whole string when there is none |
| Strings.SplitLength | apps/backend-repo/src/middleware/authMiddleware.ts:47 | a split has two or more pieces exactly when the separator occurs in the string |
| Strings.NatToDecimal | apps/backend-repo/functions/src/index.ts:169 | `toString` of a non-negative number is a non-empty string of decimal digits |
| Strings.ParseNatToDecimal | apps/backend-repo/functions/src/index.ts:169 | reading the decimal rendering back gives the number |
| Strings.NatToDecimalInjective | apps/backend-repo/functions/src/index.ts:169 | different numbers have different renderings, so positional ids never collide |
| UserEntity.RoleOrUser | apps/backend-repo/src/controller/api.ts:61 | `role \|\| "user"`: the role when present and non-empty, else "user"; never empty |
| UserEntity.WithId | apps/backend-repo/src/repository/userCollection.ts:24-28 | a stored document read back carries its key as id and every stored field unchanged |
| UserEntity.StripPassword | apps/backend-repo/src/controller/api.ts:68 | the password-free view of a record |
| UserEntity.StripPasswordForgetsOnlyPassword | apps/backend-repo/src/controller/api.ts:68 | two records look the same once stripped exactly when they differ in nothing but the password |
| UserEntity.KeyCount | apps/backend-repo/src/controller/api.ts:155 | `Object.keys(body).length` is zero exactly when the update carries no field |
| Tokens.SigningSecret | apps/backend-repo/src/controller/api.ts:56 | `JWT_SECRET` when set and non-empty, else the fixed default secret |
| Tokens.ClaimsOf | apps/backend-repo/src/controller/api.ts:58-62 | the claims are the user's id, email, and role or "user" |
| Tokens.Sign | apps/backend-repo/src/controller/api.ts:57-65 | a signed token carries the claims, the key and HS256, is issued at the current second and expires one day later |
| Tokens.Verify | apps/backend-repo/src/middleware/authMiddleware.ts:69-72 | verification succeeds exactly with the signing key, HS256 and an unexpired token, and yields the claims |
| Tokens.VerifySigned | apps/backend-repo/src/middleware/authMiddleware.ts:69-72 | a token verifies with its own key to exactly its claims within a day of signing |
| Tokens.VerifyRejectsExpired | apps/backend-repo/src/controller/api.ts:64 | a token no longer verifies from one day after signing |
| Tokens.VerifyRejectsOtherKey | apps/backend-repo/src/middleware/authMiddleware.ts:67-72 | a token never verifies under another key |
| UserCollection.Listing | apps/backend-repo/src/repository/userCollection.ts:43-46 | a full read yields one record per key, each the stored fields with the key as id |
| UserCollection.Created | apps/backend-repo/src/repository/userCollection.ts:88-93 | a new document has the given fields and both timestamps equal to the same instant |
| UserCollection.Patched | apps/backend-repo/src/repository/userCollection.ts:61-66 | an update keeps createdAt and stamps updatedAt with the current instant |
| UserCollection.Without | apps/backend-repo/src/repository/userCollection.ts:114 | removing a key keeps exactly the other keys |
| UserCollection.WithoutDistinct | apps/backend-repo/src/repository/userCollection.ts:114 | removing a key keeps the listing free of repeats |
| UserCollection.UserRepository.Users | apps/backend-repo/src/repository/userCollection.ts:39-46 | the records a full read yields, one per stored key |
| UserCollection.UserRepository.constructor | apps/backend-repo/src/repository/userCollection.ts:5 | the collection starts empty |
| UserCollection.UserRepository.GetUserById | apps/backend-repo/src/repository/userCollection.ts:16-28 | none exactly when no document has the key, else the stored fields with the key as id |
| UserCollection.UserRepository.GetAllUsers | apps/backend-repo/src/repository/userCollection.ts:39-46 | every stored document appears exactly once, with its key as id, in listing order |
| UserCollection.UserRepository.UpdateUser | apps/backend-repo/src/repository/userCollection.ts:59-74 | only the document under the id changes, to the patched fields; the result is the record read back; a missing document is an error and nothing is written |
| UserCollection.UserRepository.CreateUser | apps/backend-repo/src/repository/userCollection.ts:86-100 | the store grows by exactly the new document under the fresh key; the result is the input, both timestamps, and the key as id |
| UserCollection.UserRepository.DeleteUser | apps/backend-repo/src/repository/userCollection.ts:112-116 | exactly the document under the key is removed, others untouched, and the answer is true |
| UserCollection.PatchedKeepsUnsupplied | apps/backend-repo/src/repository/userCollection.ts:61-66 | an update keeps every field it does not supply |
| UserCollection.PatchedTakesSupplied | apps/backend-repo/src/repository/userCollection.ts:61-66 | every supplied field takes the request's value |
| UserCollection.PatchedIdempotent | apps/backend-repo/src/repository/userCollection.ts:61-66 | applying the same update twice equals applying it once at the later time |
| AuthMiddleware.BearerTokenAfterPrefix | apps/backend-repo/src/middleware/authMiddleware.ts:39-47 | for a header with the prefix, the token is the text after it up to the next occurrence of the prefix or the end |
| AuthMiddleware.BearerTokenOfPrefixed | apps/backend-repo/src/middleware/authMiddleware.ts:47 | the prefix followed by a token free of the prefix yields that token |
| AuthMiddleware.BearerToken | apps/backend-repo/src/middleware/authMiddleware.ts:47 | `split("Bearer ")[1]` exists exactly when the prefix occurs in the header, and never contains the prefix |
| AuthMiddleware.Verified | apps/backend-repo/src/middleware/authMiddleware.ts:61-78 | Firebase's decoding when it accepts, otherwise the JWT verifier's |
| AuthMiddleware.IdentityOf | apps/backend-repo/src/middleware/authMiddleware.ts:81-85 | the attached identity is the decoded uid and email, and role or "user" |
| AuthMiddleware.JwtVerifier | apps/backend-repo/src/middleware/authMiddleware.ts:67-72 | the fallback verifier decodes the token and accepts it under `JWT_SECRET \|\| "your-jwt-secret"`, on the clock in whole seconds |
| AuthMiddleware.Authenticate | apps/backend-repo/src/middleware/authMiddleware.ts:22-102 | every rejection is 401; missing header and wrong scheme rejected with their messages; `next` exactly when a non-empty token verifies, with its identity |
| AuthMiddleware.EmptyTokenRejected | apps/backend-repo/src/middleware/authMiddleware.ts:47-56 | a header that is only the prefix is rejected as missing a token |
| AuthMiddleware.FirebaseFirst | apps/backend-repo/src/middleware/authMiddleware.ts:61-64 | when Firebase accepts, the JWT verifier does not influence the result |
| AuthMiddleware.BothVerifiersFail | apps/backend-repo/src/middleware/authMiddleware.ts:58-94 | when both verifiers reject, the answer is 401 "Invalid or expired token" |
| AuthMiddleware.AuthorizeRoles | apps/backend-repo/src/middleware/authMiddleware.ts:109-128 | 401 exactly without a user, 403 exactly when the role (or "user") is not allowed, else `next` |
| AuthMiddleware.MissingRoleGatedAsUser | apps/backend-repo/src/middleware/authMiddleware.ts:84 | a token without a role passes a gate exactly when the gate admits "user" |
| Api.FindByEmail | apps/backend-repo/src/controller/api.ts:34 | the first user whose email equals the given one exactly, or none when no user has it |
| Api.HeldByOther | apps/backend-repo/src/controller/api.ts:179-181 | true exactly when some record with another id holds the email |
| Api.EmailConflict | apps/backend-repo/src/controller/api.ts:177-183 | a conflict exactly when the update carries a non-empty email, different from the current one, held by a record with another id |
| Api.UpdateMalformed | apps/backend-repo/src/controller/api.ts:142-162 | malformed exactly when the id is missing or empty, or the body is missing or carries no field |
| Api.CreateMalformed | apps/backend-repo/src/controller/api.ts:223 | well formed exactly when name, email and password are all present and non-empty |
| Api.NewUserOf | apps/backend-repo/src/controller/api.ts:223-233 | the new user takes the request's name, email, password and optional fields |
| Api.SessionToken | apps/backend-repo/src/controller/api.ts:56-65 | a session token carries the user's id, email and role or "user", the configured secret, HS256 and a one-day lifetime |
| Api.SessionTokenAuthenticates | apps/backend-repo/src/controller/api.ts:55-65 | a token issued at login or create, sent as a bearer token that Firebase rejects, passes the middleware with the user's id, email and role or "user" within the day, and is refused as invalid or expired from then on |
| Api.UserController.constructor | apps/backend-repo/src/controller/api.ts:8 | the controller works on the given repository and secret setting |
| Api.UserController.Login | apps/backend-repo/src/controller/api.ts:19-85 | 400 iff email or password is missing or empty; 404 iff no user has the email; 401 iff the first such user's password differs; each failure with its own message; 200 otherwise, with that user minus its password and its session token |
| Api.UserController.FetchUserData | apps/backend-repo/src/controller/api.ts:92-131 | with an id, that stored record including its password, or 404; without one, every record |
| Api.UserController.UpdateUserData | apps/backend-repo/src/controller/api.ts:138-212 | 400 iff no id ("User ID is required") or no field ("No update data provided"), 404 iff unknown id, 409 iff a changed non-empty email is held by another record, each with its own message, 200 otherwise; the store is written only on 200, and then only that document |
| Api.UserController.CreateUser | apps/backend-repo/src/controller/api.ts:219-266 | 400 iff name, email or password is missing or empty, with its message and the store unchanged; otherwise 201, the user stored without any email check with the repository's clock reading as both stamps, and the answer is the user minus its password with a session token signed at a separate, later clock reading |
| Api.UserController.GetUserProfile | apps/backend-repo/src/controller/api.ts:273-314 | 401 without a uid, 404 when no record has it, else that record minus its password |
| MockFunctions.WrapResponse | apps/backend-repo/functions/src/index.ts:39-45 | the given non-empty message, else "Operation successful" or "Operation failed" by the success flag |
| MockFunctions.InitialUsers | apps/backend-repo/functions/src/index.ts:19-36 | John ("1", admin) and Jane ("2", user), without passwords, each timestamp its own clock reading |
| MockFunctions.FirstIndex | apps/backend-repo/functions/src/index.ts:135 | `findIndex`: the first position whose key equals the value, or -1 when none does |
| MockFunctions.LastSegmentIsSuffix | apps/backend-repo/functions/src/index.ts:109 | the last path segment is a suffix of the path |
| MockFunctions.LastSegment | apps/backend-repo/functions/src/index.ts:109 | `split("/").pop()` holds no "/", and is the whole path when the path has none |
| MockFunctions.JoinEndsWithLast | apps/backend-repo/functions/src/index.ts:109 | a join ends with its last piece |
| MockFunctions.Merged | apps/backend-repo/functions/src/index.ts:138-142 | every key the body carries overrides the old value, every absent one keeps it, and updatedAt is the new stamp |
| MockFunctions.MergedIdempotent | apps/backend-repo/functions/src/index.ts:138-142 | merging the same body twice is merging it once at the later stamp |
| MockFunctions.Fresh | apps/backend-repo/functions/src/index.ts:168-173 | a created user has the body's fields, the body's id or the default one, and the two server clock readings as timestamps |
| MockFunctions.PositionalIdsLookup | apps/backend-repo/functions/src/index.ts:133-135 | while every id is its position plus one, looking up id k finds position k - 1 |
| MockFunctions.BodyIdCanDuplicate | apps/backend-repo/functions/src/index.ts:168-175 | for any list, a create whose body names the id the next create picks, followed by a create without an id, appends two users with the same id |
| MockFunctions.MockUserStore.constructor | apps/backend-repo/functions/src/index.ts:19-36 | the list starts as the two mock users, with positional ids |
| MockFunctions.MockUserStore.FindIndex | apps/backend-repo/functions/src/index.ts:135 | the scan returns the first matching position, or -1 |
| MockFunctions.MockUserStore.Login | apps/backend-repo/functions/src/index.ts:58-89 | 405 unless POST; only John's exact credentials get his record and a token stamped with the clock; anything else 401 |
| MockFunctions.MockUserStore.FetchUserData | apps/backend-repo/functions/src/index.ts:92-103 | always the first mock user |
| MockFunctions.MockUserStore.GetUserById | apps/backend-repo/functions/src/index.ts:106-121 | the first user whose id is the last path segment, or 404 |
| MockFunctions.MockUserStore.UpdateUserData | apps/backend-repo/functions/src/index.ts:124-152 | 405 unless PUT; 404 and no change for an unknown id; otherwise only that element changes, body fields over old ones and a new updatedAt; the length never changes; positional ids are kept when the body has no id |
| MockFunctions.MockUserStore.CreateUser | apps/backend-repo/functions/src/index.ts:155-182 | 405 unless POST; otherwise exactly one user appended, with id the old length plus one unless the body gives one; positional ids are kept when the body has no id |
| MockFunctions.CreateTwiceSharesId | apps/backend-repo/functions/src/index.ts:158-176 | two successive calls of the create handler, the first naming the id the second picks, leave the list ending in two users with one id |
| Actions.TypesDistinct | apps/frontend-repo/store/actions.ts:4-22 | the fifteen action types are pairwise distinct |
| Actions.FetchUsersRequest | apps/frontend-repo/store/actions.ts:25-27 | type FETCH_USERS_REQUEST and no payload |
| Actions.FetchUsersSuccess | apps/frontend-repo/store/actions.ts:29-31 | type FETCH_USERS_SUCCESS with the users as payload |
| Actions.FetchUsersFailure | apps/frontend-repo/store/actions.ts:33-35 | type FETCH_USERS_FAILURE with the error as payload |
| Actions.FetchUserRequest | apps/frontend-repo/store/actions.ts:37-39 | type FETCH_USER_REQUEST with the id as payload |
| Actions.FetchUserSuccess | apps/frontend-repo/store/actions.ts:41-43 | type FETCH_USER_SUCCESS with the user as payload |
| Actions.FetchUserFailure | apps/frontend-repo/store/actions.ts:45-47 | type FETCH_USER_FAILURE with the error as payload |
| Actions.UpdateUserRequest | apps/frontend-repo/store/actions.ts:49-51 | type UPDATE_USER_REQUEST with the id and the update data as payload |
| Actions.UpdateUserSuccess | apps/frontend-repo/store/actions.ts:53-55 | type UPDATE_USER_SUCCESS with the user as payload |
| Actions.UpdateUserFailure | apps/frontend-repo/store/actions.ts:57-59 | type UPDATE_USER_FAILURE with the error as payload |
| Actions.CreateUserRequest | apps/frontend-repo/store/actions.ts:61-63 | type CREATE_USER_REQUEST with the new user data as payload |
| Actions.CreateUserSuccess | apps/frontend-repo/store/actions.ts:65-67 | type CREATE_USER_SUCCESS with the user as payload |
| Actions.CreateUserFailure | apps/frontend-repo/store/actions.ts:69-71 | type CREATE_USER_FAILURE with the error as payload |
| Actions.DeleteUserRequest | apps/frontend-repo/store/actions.ts:73-75 | type DELETE_USER_REQUEST with the id as payload |
| Actions.DeleteUserSuccess | apps/frontend-repo/store/actions.ts:77-79 | type DELETE_USER_SUCCESS with the id string as payload |
| Actions.DeleteUserFailure | apps/frontend-repo/store/actions.ts:81-83 | type DELETE_USER_FAILURE with the error as payload |
| Reducers.ReplaceById | apps/frontend-repo/store/reducers.ts:98-100 | same length and order; exactly the entries with the updated id are replaced |
| Reducers.RemoveById | apps/frontend-repo/store/reducers.ts:141 | exactly the users with another id remain |
| Reducers.RemoveByIdAppend | apps/frontend-repo/store/reducers.ts:141 | removal distributes over concatenation, so the remaining users keep their order |
| Reducers.RemoveByIdAbsent | apps/frontend-repo/store/reducers.ts:141 | when no user has the id, the list is unchanged |
| Reducers.RemoveByIdIdempotent | apps/frontend-repo/store/reducers.ts:141 | removing twice is removing once |
| Reducers.InitialState | apps/frontend-repo/store/reducers.ts:35-40 | no users, nothing selected, idle, no error |
| Reducers.UserReducer | apps/frontend-repo/store/reducers.ts:43-156 | requests set loading and clear error; failures clear loading and store the error; each success changes only its fields; delete filters the list by id in order and clears currentUser iff its id matches; unknown types leave the state as it is |
| AuthSlice.InitialState | apps/frontend-repo/store/authSlice.ts:20-32 | no user, nothing loading, no messages, the stored token, authenticated exactly when that token is non-empty |
| AuthSlice.AuthStore.constructor | apps/frontend-repo/store/authSlice.ts:20-32 | the store starts in the initial state |
| AuthSlice.AuthStore.ClearError | apps/frontend-repo/store/authSlice.ts:146-148 | only error becomes null |
| AuthSlice.AuthStore.ClearFetchSuccess | apps/frontend-repo/store/authSlice.ts:149-151 | only fetchSuccess becomes null |
| AuthSlice.AuthStore.ClearUpdateSuccess | apps/frontend-repo/store/authSlice.ts:152-154 | only updateSuccess becomes null |
| AuthSlice.AuthStore.ClearUpdateError | apps/frontend-repo/store/authSlice.ts:155-157 | only updateError becomes null |
| AuthSlice.AuthStore.LoginPending | apps/frontend-repo/store/authSlice.ts:162-165 | only loading is set and error cleared |
| AuthSlice.AuthStore.LoginFulfilled | apps/frontend-repo/store/authSlice.ts:166-174 | loading cleared, authenticated, user and token from the payload or null; nothing else changes |
| AuthSlice.AuthStore.LoginRejected | apps/frontend-repo/store/authSlice.ts:175-179 | loading cleared, not authenticated, the payload as error; user and token kept |
| AuthSlice.AuthStore.LogoutPending | apps/frontend-repo/store/authSlice.ts:181-183 | only loading is set |
| AuthSlice.AuthStore.LogoutFulfilled | apps/frontend-repo/store/authSlice.ts:184-189 | loading, authentication, user and token cleared |
| AuthSlice.AuthStore.LogoutRejected | apps/frontend-repo/store/authSlice.ts:190-193 | only loading cleared and error set; authentication kept |
| AuthSlice.AuthStore.FetchProfilePending | apps/frontend-repo/store/authSlice.ts:195-199 | loading set, error and fetchSuccess cleared |
| AuthSlice.AuthStore.FetchProfileFulfilled | apps/frontend-repo/store/authSlice.ts:200-204 | the profile becomes the user, with the fixed success message |
| AuthSlice.AuthStore.FetchProfileRejected | apps/frontend-repo/store/authSlice.ts:205-208 | loading cleared and error set |
| AuthSlice.AuthStore.UpdateProfilePending | apps/frontend-repo/store/authSlice.ts:210-214 | only the three update fields change |
| AuthSlice.AuthStore.UpdateProfileFulfilled | apps/frontend-repo/store/authSlice.ts:215-219 | the updated user is stored with the fixed message; loading, error and authentication untouched |
| AuthSlice.AuthStore.UpdateProfileRejected | apps/frontend-repo/store/authSlice.ts:220-223 | only updateLoading and updateError change |
| EmailPattern.IsSpace | apps/frontend-repo/app/login/page.tsx:56 | `\s`: the WhiteSpace and LineTerminator characters; no visible ASCII character is one |
| EmailPattern.EmailLike | apps/frontend-repo/app/login/page.tsx:56 | the unanchored `\S+@\S+\.\S+` matches somewhere; a match needs at least five characters, an "@" and a "." |
| EmailPattern.EmailLikeByWitness | apps/frontend-repo/app/login/page.tsx:56 | the pattern matches somewhere exactly when a shortest-form match exists |
| EmailPattern.ContainsEmailPattern | apps/frontend-repo/app/login/page.tsx:56 | the one-pass scan answers true exactly when `\S+@\S+\.\S+` matches somewhere in the string |
| LoginPage.ValidateLoginForm | apps/frontend-repo/app/login/page.tsx:45-72 | "Email is required" iff the email is empty; "Email is invalid" iff it is filled but has no match; "Password is required" iff empty; the length error iff shorter than six; valid iff both messages are empty |
| LoginPage.HandleSubmit | apps/frontend-repo/app/login/page.tsx:82-87 | a login request, exactly the form, goes out iff the form is valid, and only then is the store set loading |
| RegisterPage.ValidateRegisterForm | apps/frontend-repo/app/register/page.tsx:65-109 | all four checks run; each message appears exactly under its condition; a filled confirmation that differs gives "Passwords do not match"; valid iff all four are empty |
| RegisterPage.RegisterPayload | apps/frontend-repo/app/register/page.tsx:123 | the request is the form with only the confirmation dropped |
| RegisterPage.HandleSubmit | apps/frontend-repo/app/register/page.tsx:119-125 | a request is built iff the form is valid, and then it is the form without the confirmation |
| HomePage.EditFormOf | apps/frontend-repo/app/page.tsx:65-72 | the edit form takes the user's name and email, or "" when missing, and an empty password |
| HomePage.Entries | apps/frontend-repo/app/page.tsx:156 | `Object.entries` of the edit form: name, email and password with their values, each key once |
| HomePage.KeepFilled | apps/frontend-repo/app/page.tsx:157 | exactly the entries with a non-empty value remain, keys still distinct |
| HomePage.Collect | apps/frontend-repo/app/page.tsx:158 | the object has exactly the entries' keys, each with its entry's value when keys are distinct |
| HomePage.UpdatePayload | apps/frontend-repo/app/page.tsx:156-158 | the payload holds exactly the non-empty fields, with their values unchanged |
| HomePage.PlanUpdate | apps/frontend-repo/app/page.tsx:134-167 | an all-empty form is rejected first, a missing user or id second; otherwise the payload goes out for the user's id, and it is never empty |
| HomePage.HandleUpdateUser | apps/frontend-repo/app/page.tsx:130-178 | a rejection is recorded as the update error; a dispatch starts the update and blanks the password, keeping name and email |

## Left out

- Firestore itself: a full read lists documents in insertion order here (Firestore orders them by key); the key of a new document is a parameter.
- Request bodies carry only the keys a user has; extra keys, such as an `id` in a body given to the backend's create, are not modelled.
- The `catch` branches that answer 500 in the controller and the middleware, and the mock functions' 500 paths: they fire only when the store, a library or the runtime throws. The one store error the model has (an update of a missing document) is caught as in the code, but the controller's guards make it unreachable.
- The signature and encoding of tokens: a token is its claims, times, algorithm and key. Firebase's `verifyIdToken` and `jwt.verify` are parameters that accept or reject a token string.
- Concurrency: every handler runs as one atomic step, so the race between the email check and the write in `updateUserData` is not modelled.
- The asynchronous thunks (`login`, `logout`, `fetchUserProfile`, `updateUserProfile`), the client API and local storage: only the actions they end in are modelled, with their payloads as parameters.
- The registration page imports a `register` thunk that the auth slice does not define; the model stops at the request the page builds.
- Logging: the middleware logs every bearer token it receives and the handlers log their errors; console output is not modelled.
- React rendering, hooks, navigation, timers that clear messages, the `helloWorld` function, selectors and CORS.
- String lengths count characters, not UTF-16 code units, so a password with characters outside the Basic Multilingual Plane is measured differently.
- `userReducer`'s default parameter `state = initialState`: the reducer always receives a state.
- Api.UserController.CreateUser: `updateUserData` refuses an email held by another record (apps/backend-repo/src/controller/api.ts:176-191), but `createUser` makes no such check (apps/backend-repo/src/controller/api.ts:219-266); the model follows the code.
- UserCollection.UserRepository.DeleteUser: answers true whether or not the document existed, as the code does, not whether it existed.
- Api.UserController.FetchUserData: `login`, `updateUserData`, `createUser` and `getUserProfile` remove the password (apps/backend-repo/src/controller/api.ts:68, 197, 248, 300); `fetchUserData` does not, and the model follows the code.
- Reducers.UserReducer: requires the payload to have the shape its action type implies; a mismatched payload, which the code's unchecked casts would pass through, is not modelled.
