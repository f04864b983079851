# Blog REST backend: authentication, route guard, posts and subscribers

A Dafny model of the request handlers of a small Express/Mongoose blog
backend: local signup and signin with a login limiter, Google login, the
bearer-token route guard, the posts handlers (pagination, likes, comments,
id guards) and the subscriber handlers. The document store is an abstract
map from id to record. Library calls are parameters: `sanitizeHtml`,
`bcrypt.hash`/`bcrypt.compare`, `jwt.verify`/`jwt.decode` and
`ObjectId.isValid`. `jwt.sign` is kept as the term `Token(claims, secret,
lifetime)` it signs.

Modules, one per source file or component:

- `Common` (common.dfy): optional request values and JavaScript truthiness.
- `LoginLimiter` (login_limiter.dfy): the in-memory login limiter of
  controllers/user.js. It allows 5 points per key in a fixed 3600-second
  window that opens at the key's first consume. A consume past the limit
  still counts its point and is rejected. The clock is an explicit natural
  number.
- `PasswordPolicy` (password_policy.dfy): the signup regular expression, read
  as JavaScript reads it, and the policy it amounts to.
- `UserController` (user_controller.dfy): `signin`, `signup` and
  `googlelogin` as pure outcome functions over the users, the id counter and
  the limiter counters. The class `AuthService` holds those three as fields,
  and its methods run the handlers step by step. Each method is proved equal
  to its outcome function.
- `AuthMiddleware` (auth_middleware.dfy): the route guard, as a function from
  the `Authorization` header to `Unauthorized | ServerError | Proceed(userId)`.
  `String.prototype.split` is modelled with its inverse `join`.
- `PostsController` (posts_controller.dfy): page arithmetic, the like toggle
  and the comment append as functions. The class `PostStore` holds the
  post map and runs the writing handlers.
- `SubscribersController` (subscribers_controller.dfy): the loaded subscriber
  document is a class whose fields `updateSubscriber` overwrites in place.
  `SubscriberStore` holds the stored records.

Where the code and its documentation disagree, the model follows the code:

- A limiter rejection is caught by the handler's generic `catch`, so it
  becomes 500 "Something went wrong". The route documentation says 401, and a
  rate-limit status would be 429.
- A wrong password spends two points. The third wrong password in one
  window is therefore answered with 500, not 400.
- "Bearer" with no space is rejected with 401. "Bearer " followed by nothing
  carries the empty token, which takes the decode-only branch. As
  `jwt.decode` gives `null` for the empty string, the request proceeds with
  no user id.
- Signup checks for an existing email before it checks the password, so an
  existing email gets "User already exists" even with a weak password.
- The password rule rejects every character that is not an ASCII letter or
  digit. The rejection message does not say so.
- The guard verifies tokens with the fixed secret `"test"`. The handlers sign
  them with the configured `JWT_SECRET`. A missing secret makes `jwt.sign`
  throw after signup or Google login has already stored the user.

## Model

| member | source | states |
|---|---|---|
| `LoginLimiter.Consume` | controllers/user.js:11-14 | one consume adds exactly one point to the key's current window, opening a 3600 s window when none is live; other keys untouched; allowed iff fewer than 5 points were already spent in the window |
| `LoginLimiter.ConsumedPersistsInWindow` | controllers/user.js:11-14 | points spent stay spent at every later instant before the window ends |
| `LoginLimiter.ExpiredWindowAllows` | controllers/user.js:11-14 | once the window has ended the next consume is allowed and starts a new count at 1 |
| `PasswordPolicy.MatchesPasswordRegex` | controllers/user.js:67-68 | `passwordRegex.test(p)`: the three lookaheads hold at offset 0, where `.` stops at `\n`, `\r`, U+2028 and U+2029; `[a-zA-Z\d]{8,}` spans the whole input, since `^` and `$` anchor it without the `m` flag |
| `PasswordPolicy.LookaheadIsContains` | controllers/user.js:67 | in an all-alphanumeric input, `(?=.*[k])` holds iff some character is of class k |
| `PasswordPolicy.RegexIsPolicy` | controllers/user.js:67-68 | the regular expression accepts a password iff it has at least 8 characters, only ASCII letters and digits, and at least one lowercase letter, one uppercase letter and one digit |
| `PasswordPolicy.NonAlnumRejected` | controllers/user.js:67 | any symbol or space anywhere makes the password fail |
| `PasswordPolicy.ExampleAccepted` | controllers/user.js:67-68 | "Abcdefg1" is accepted |
| `PasswordPolicy.SymbolRejectedDespiteStatedRule` | controllers/user.js:67-69 | "Abcdefg1!" satisfies the rule the error message states but is rejected |
| `PasswordPolicy.NoUppercaseRejected` | controllers/user.js:67-68 | "abc12345" is rejected |
| `UserController.Sign` | controllers/user.js:42 | signing fails (throws) exactly when the secret is unset or empty; otherwise the token carries the email and id claims, the secret and the 3600 s lifetime |
| `UserController.SanitizeField` | controllers/user.js:89-90 | an absent field sanitises to the empty string; a present one to `sanitizeHtml` of its value |
| `UserController.FindOne` | controllers/user.js:28 | the result is a user with the email below the id bound and no older user has it; none is found only when no user below the bound has the email |
| `UserController.SigninOutcome` | controllers/user.js:16-48 | missing email or password: 400, no point spent; otherwise only the raw email's counter changes, by 2 points on a wrong password within the limit and by 1 otherwise; 500 once 5 points were spent or when the wrong-password point is the sixth; 404 for an unknown sanitised email; 400 for a wrong password; 200 with the user and a token for its id and email on a right password (500 if the secret is unset) |
| `UserController.ThirdWrongPasswordIsServerError` | controllers/user.js:25-47 | three wrong-password signins within one window answer 400, 400, then 500 |
| `UserController.LockedOutUntilWindowEnds` | controllers/user.js:11-47 | with 5 points spent even the right password gets 500; after the window ends it gets 200 |
| `UserController.SignupOutcome` | controllers/user.js:51-82 | a missing field gives 400 with no change; then an existing sanitised email gives 400 "User already exists" whatever the password; then a password outside the policy gives 400; otherwise exactly one user is added under the next id with the sanitised email, the hash of the password and "first last" as name, and the answer is 201 with a token for that id and email |
| `UserController.SignupKeepsStoreValid` | controllers/user.js:59-74 | signup keeps emails unique and ids below the counter, and adds at most the one new id |
| `UserController.SecondSignupConflicts` | controllers/user.js:59-64 | after a signup that created a user, a signup whose email sanitises to the same value gets "User already exists" and creates nothing |
| `UserController.SigninAfterSignup` | controllers/user.js:16-82 | a user created by signup signs in with the same email and password (200) and the token's id claim is the new user's id, when bcrypt accepts a password against its own hash |
| `UserController.GoogleLoginOutcome` | controllers/user.js:84-127 | no `result` object: 500; an empty sanitised email or name: 400, nothing created; otherwise a user with the email exists afterwards, a new one (with the hashed throwaway password and the sanitised name) only if none existed, an existing record unchanged; the token names a stored user with that email, is signed with the configured secret for 3600 s, and no user record is returned |
| `UserController.GoogleLoginKeepsStoreValid` | controllers/user.js:97-114 | Google login keeps emails unique and ids below the counter, and adds at most the one new id |
| `UserController.GoogleLoginIdempotent` | controllers/user.js:97-114 | a second identical Google login leaves the users as the first left them and returns the same token |
| `UserController.AuthService.constructor` | controllers/user.js:8-14 | the service starts with no users, no counters and the configured secret |
| `UserController.AuthService.ConsumePoint` | controllers/user.js:25 | the counters become the limiter's consume of the key at the given time |
| `UserController.AuthService.Signin` | controllers/user.js:16-48 | the reply and the new counters are those of `SigninOutcome`; the users are untouched |
| `UserController.AuthService.Signup` | controllers/user.js:51-82 | the reply and the new users are those of `SignupOutcome`; the id counter moves past a created user; emails stay unique |
| `UserController.AuthService.GoogleLogin` | controllers/user.js:84-127 | the reply and the new users are those of `GoogleLoginOutcome`; the id counter moves past a created user; emails stay unique |
| `AuthMiddleware.Split` | middleware/auth.js:12 | the fields contain no separator and join back to the input; the first field is the text before the first separator; there is one field iff the input has no separator |
| `AuthMiddleware.SplitJoin` | middleware/auth.js:12 | splitting a join of separator-free fields gives the fields back |
| `AuthMiddleware.SplitAfterWord` | middleware/auth.js:12 | a separator-free word followed by a separator becomes the first field, and the rest splits on its own |
| `AuthMiddleware.TokenOf` | middleware/auth.js:12 | there is a token iff the header has a space; the token is the text after the first space, holds no space, and ends at the next space or at the end of the header |
| `AuthMiddleware.Authenticate` | middleware/auth.js:5-32 | 401 iff the header is missing or does not start with exactly "Bearer "; 500 only when a non-empty token shorter than 500 characters fails verification |
| `AuthMiddleware.BearerTokenIsFirstFieldOfRest` | middleware/auth.js:8-12 | the token is the text after "Bearer " up to the next space; anything after a further space is ignored |
| `AuthMiddleware.BearerTokenExists` | middleware/auth.js:8-13 | a header that passes the prefix check always has a token field |
| `AuthMiddleware.ShortTokenIsVerified` | middleware/auth.js:13-20 | a non-empty token under 500 characters is verified with the fixed secret; the request proceeds with its `id` claim, or gets 500 when verification fails |
| `AuthMiddleware.LongOrEmptyTokenIsOnlyDecoded` | middleware/auth.js:17-27 | an empty token or one of 500 characters or more is only decoded, never rejected; the request proceeds with the `sub` claim, or with no user id when nothing decodes |
| `AuthMiddleware.EmptyBearerProceedsWithoutUser` | middleware/auth.js:12-27 | when `jwt.decode` gives `null` for the empty string, the header "Bearer " lets the request proceed with no user id |
| `AuthMiddleware.DoubleSpaceGivesEmptyToken` | middleware/auth.js:12 | "Bearer  x" and "Bearer " carry the empty token |
| `PostsController.NumberOfPages` | controllers/posts.js:18 | the page count is the ceiling of total / 8: enough pages for every post, and the last one non-empty |
| `PostsController.Window` | controllers/posts.js:15 | the page is the consecutive posts starting at the skip index: 8 of them when 8 remain, every remaining post when fewer remain, none past the end |
| `PostsController.GetPosts` | controllers/posts.js:7-22 | a page below 1 gives 404; otherwise currentPage is the page, numberOfPages the ceiling of total / 8, and the data the posts from index (page - 1) * 8 |
| `PostsController.PagesUpToIsPrefix` | controllers/posts.js:11-15 | pages 1 to k together are the first 8k posts |
| `PostsController.PagesPartitionPosts` | controllers/posts.js:11-18 | pages 1 to numberOfPages, in order, are exactly all posts newest first, each of them non-empty; later pages are empty |
| `PostsController.RemoveAll` | controllers/posts.js:162 | the user no longer occurs, every remaining id was already in the list (as a sub-multiset), and a list without the user is unchanged |
| `PostsController.RemoveAllKeepsOthers` | controllers/posts.js:162 | every other id keeps its number of occurrences |
| `PostsController.RemoveAllKeepsOrder` | controllers/posts.js:162 | filtering distributes over concatenation, so the remaining ids keep their relative order |
| `PostsController.ToggleLike` | controllers/posts.js:157-163 | the user's membership flips; an absent user is appended last with earlier likes unchanged; a present user has every occurrence removed |
| `PostsController.ToggleTwiceRestores` | controllers/posts.js:157-163 | toggling twice from a list without the user gives the list back |
| `PostsController.AppendComment` | controllers/posts.js:186 | the value is the last comment and earlier comments are unchanged |
| `PostsController.PostStore.GetPost` | controllers/posts.js:55-65 | an id that cannot be cast gives 404; otherwise 200 with the stored post, or null when there is none |
| `PostsController.PostStore.CreatePost` | controllers/posts.js:67-81 | the new post has the body's title, message, tags and file, the caller's user id as creator, the given timestamp and no likes or comments; a taken id gives 409 and no change |
| `PostsController.PostStore.UpdatePost` | controllers/posts.js:83-106 | an invalid id gives 404 with no change; an unknown id answers null with no change; otherwise creator, title, message, tags and file take the body's values and nothing else changes |
| `PostsController.PostStore.DeletePost` | controllers/posts.js:108-127 | an invalid id gives 404 with no change; otherwise exactly that id is removed, with the same answer whether or not it existed |
| `PostsController.PostStore.LikePost` | controllers/posts.js:129-171 | no user id answers "Unauthenticated" with no change; then an invalid id gives 404 with no change; a missing post 409; otherwise only that post's likes change, by the toggle |
| `PostsController.PostStore.CommentPost` | controllers/posts.js:173-194 | an id the store cannot cast or with no post gives 409 with no change; otherwise only that post's comments change, by the append |
| `SubscribersController.NewRecord` | controllers/subscribers.js:22-25 | the new record takes name and subscribedToChannel from the body and nothing else |
| `SubscribersController.CreateIgnoresOtherFields` | controllers/subscribers.js:22-25 | bodies that agree on the two copied fields give the same record |
| `SubscribersController.ApplyUpdate` | controllers/subscribers.js:37-42 | each field is overwritten exactly when the body carries it (an empty string included); the subscription date never changes |
| `SubscribersController.UpdateIdempotent` | controllers/subscribers.js:37-42 | applying the same update twice equals applying it once |
| `SubscribersController.UpdateWithoutFieldsIsIdentity` | controllers/subscribers.js:37-43 | a body with neither field leaves the record unchanged |
| `SubscribersController.GetOneSubscriber` | controllers/subscribers.js:16-18 | the answer is the loaded record, or null when none was loaded |
| `SubscribersController.SubscriberStore.CreateSubscriber` | controllers/subscribers.js:21-32 | the stored record is the body's two fields dated now, answered with 201; a taken id gives 400 and no change |
| `SubscribersController.SubscriberStore.UpdateSubscriber` | controllers/subscribers.js:35-48 | no loaded document: 400 and no change; otherwise the document is updated in place as `ApplyUpdate` says and saved under its id, or 400 with the store unchanged when its record is gone |
| `SubscribersController.SubscriberStore.DeleteSubscriber` | controllers/subscribers.js:51-62 | with a loaded document exactly its record is removed ("Subscriber deleted"); without one, 404 "Subscriber not found" and nothing is removed |

## Left out

- Library internals are parameters or free terms, not verified code: sanitize-html, bcrypt, jsonwebtoken's encoding, signature and expiry checks, and `ObjectId.isValid`. `jwt.sign` is the term `Token(claims, secret, 3600)`. A signed token is therefore never fed back to the guard's `verify` parameter. `bcrypt.hash(password, 12)` salts at random, so two hashes of one password differ, while the `hash` parameter is a fixed function; no lemma relies on two hashes being equal, and `UserController.SigninAfterSignup` assumes only that `compare(p, hash(p))` holds.
- Store failures other than the ones modelled (a taken id, a missing document, an uncastable id) are left out, and so are the 500, 409 or 400 answers they would cause. Mongoose schema validation is left out too: models/postMessage.js and models/subscriber.js are not part of this model. A new post's empty likes and comments and a subscriber's `subscribeDate` are taken as schema defaults.
- Store-generated ids are inputs. Users get the next value of a counter. Posts and subscribers get a caller-supplied id, and a taken id gives the handler's catch status.
- `getPostsBySearch` and `getPostsByCreator`: they build a regular expression from user input or run a store query, and so depend on the regex engine and on store semantics. `getAllSubscribers` returns the whole collection and has nothing to state.
- `GetPosts` takes the store's newest-first listing as an input; sorting by `_id` is the store's job. `Number(page)` is taken to be an integer (a NaN page is not modelled). A page below 1 gives a negative skip, which the store rejects; that is answered with 404.
- Randomness and time are inputs: the `Math.random` throwaway password and `new Date().toISOString()`. Each signin reads the clock once, and both of its consumes use that instant.
- Concurrency is left out: the check-then-create race of signup and Google login, and concurrent limiter consumes. The limiter's timers are replaced by comparing the clock with each window's end.
- Request bodies are typed. Post body fields are strings (absent post fields are not modelled). Subscriber bodies are maps in which `null` and `undefined` are both an absent key. `sanitizeHtml` of an absent field is the empty string.
- `AuthMiddleware.Authenticate`: the 500-character test counts Dafny characters, not UTF-16 code units, so tokens with characters outside the Basic Multilingual Plane are measured differently. `jwt.decode` is taken never to throw. What `jwt.decode` gives for the empty string is not modelled; `AuthMiddleware.EmptyBearerProceedsWithoutUser` takes it to be `null` as a precondition.
- Routing tables, Swagger documentation, server start-up, the database connection, logging and response serialisation. These include the `getSubscriber` loader, so the loaded subscriber document is an input of the subscriber handlers.
