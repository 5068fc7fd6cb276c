# writeflow, modelled in Dafny

writeflow is a blogging application. It has two parts:
- a React single-page client, with an auth store, a request pipeline, a proactive token refresher, post caches and form rules;
- an AWS Lambda backend that keeps post records in DynamoDB and post content in S3.

This project models the deterministic core of both parts and proves properties of that model:
- the session and token lifecycle on the client;
- the post handlers' guard chains and record computations;
- the two slug normalisers, the unique-slug search and the content-key rule;
- the client's list and loaded-post caches;
- the password and title rules, and the editor and API-key stores.

Some inputs become parameters:
- time (`Date.now()` in milliseconds; ISO time stamps as strings);
- the `exp` claim of a JWT, as a function `string -> Option<int>`;
- every network or storage outcome.

The DynamoDB table is a map from slug to record. The S3 bucket is a map from key to content.

The model keeps the shapes of the source:
- Zustand stores and React hook state are classes, whose methods change their fields.
- Each class has a `State()` datatype and pure transition functions, and the lemmas are stated over those functions.
- The handlers are guard chains returning a `LambdaResult`.
- `ensureUniqueSlug` is a `while` loop over a set of taken slugs.
- `deletePost` is a method with two ordered writes.

One module per source file:
- `Auth` (auth store), `Api` (request pipeline), `TokenRefresh`, `UseAuth`;
- `Envelope` (backend response envelope) and `RoundTrip` (the envelope seen through the pipeline);
- `BackendSlug`, `ClientSlug`, `ContentKey`, and `Runs` (the run-to-dash rewrite both slug rules share);
- `Posts` (records and storage), `CreatePost`, `UpdatePost`, `GetPost`, `DeletePost`, `ListPosts`;
- `PostCache` (list transforms shared by the store and the hooks), `PostsStore`, `UsePosts`, and `StoreAsWritten` (the store's reads of its replies exactly as written; see Findings);
- `Validations`, `Editor`, `ApiKey`;
- the helpers `Wrappers`, `JsString` and `Json`.

JavaScript semantics are written out where they matter:
- truthiness of `""`, `0` and `null`, and `||` as opposed to `??`;
- what `trim` and `\s` remove;
- decimal rendering of numbers;
- UTF-16 lengths;
- `parseInt`;
- object spread, which is the right-biased map union.

## Model

| member | source | states |
|---|---|---|
| JsString.TrimStart | app/src/lib/posts.ts:10 | the result is a suffix of the input preceded only by JavaScript white space, and starts with a non-space |
| JsString.TrimEnd | app/src/lib/posts.ts:10 | the result is a prefix of the input followed only by white space, and ends with a non-space |
| JsString.Trim | backend/writeflow-sam-app/src/handlers/createPost.ts:27 | `trim()` leaves neither leading nor trailing white space and never lengthens |
| JsString.ToLower | app/src/lib/posts.ts:9 | `toLowerCase()` keeps the length and lowers each ASCII capital, position by position |
| JsString.Utf16LengthAppend | app/src/lib/validations.ts:7-10 | the JavaScript length of a concatenation is the sum of the lengths |
| JsString.Utf16LengthBmp | app/src/lib/validations.ts:26-28 | without astral characters the JavaScript length is the character count |
| JsString.NatToStringInjective | backend/writeflow-sam-app/src/utils/slug.ts:22 | distinct counters render as distinct decimal strings |
| Json.Field | app/src/services/api.ts:98-103 | a property read yields a value exactly when the value is an object holding that key |
| Auth.ExpirationFromToken | app/src/store/auth.ts:123-130 | the expiry is `exp * 1000`, or null exactly when the token cannot be decoded |
| Auth.AfterSetTokens | app/src/store/auth.ts:137-149 | authenticated, initialised, error cleared, `idToken ?? accessToken`, expiry from the access token, loading and pending email untouched |
| Auth.AfterUpdateTokens | app/src/store/auth.ts:151-160 | expiry is `now + expiresIn*1000` for a non-zero `expiresIn`, else from the token; only the tokens, expiry and error change |
| Auth.AfterLogout | app/src/store/auth.ts:171-175 | the initial state except `isInitialized` |
| Auth.LogoutIdempotent | app/src/store/auth.ts:171-175 | logging out twice is logging out once |
| Auth.TimeUntilExpiry | app/src/store/auth.ts:185-189 | null exactly when the expiry is absent or 0, else expiry minus now |
| Auth.ExpiredIffNoTimeLeft | app/src/store/auth.ts:179-189 | at the same instant, expired exactly when no time is left (null or at most 0) |
| Auth.TimeLeftAfterRefresh | app/src/store/auth.ts:151-189 | right after a refresh reporting `expiresIn` seconds, exactly that many milliseconds are left |
| Auth.ReloadKeepsSession | app/src/store/auth.ts:193-200 | a reload restores exactly the six persisted fields and resets the transient ones; persisting again is stable |
| Auth.AuthStore.constructor | app/src/store/auth.ts:105-116 | the store starts in the initial state |
| Auth.AuthStore.SetTokens | app/src/store/auth.ts:137-149 | the new state is `AfterSetTokens` of the old |
| Auth.AuthStore.UpdateTokens | app/src/store/auth.ts:151-160 | the new state is `AfterUpdateTokens` of the old |
| Auth.AuthStore.SetLoading | app/src/store/auth.ts:163 | only `isLoading` changes |
| Auth.AuthStore.SetInitialized | app/src/store/auth.ts:165 | only `isInitialized` changes |
| Auth.AuthStore.SetError | app/src/store/auth.ts:167 | sets the error and ends loading |
| Auth.AuthStore.SetPendingEmail | app/src/store/auth.ts:169 | only `pendingEmail` changes |
| Auth.AuthStore.ClearError | app/src/store/auth.ts:177 | only `error` is cleared |
| Auth.AuthStore.Logout | app/src/store/auth.ts:171-175 | the new state is `AfterLogout` of the old |
| Api.AuthHeader | app/src/services/api.ts:139 | a Bearer header is attached exactly when an id token is present and auth is not skipped |
| Api.ErrorMessage | app/src/services/api.ts:174-177 | the message is the body's `error`, else its `message`, else `HTTP error <status>` |
| Api.Unwrap | app/src/services/api.ts:185-198 | an object with `success` and defined `data` yields `data`; anything else is returned unchanged |
| Api.FailureCarriesStatus | app/src/services/api.ts:173-179 | a non-OK response rejects with an ApiError carrying its status, the derived message and the body |
| Api.NoContentIsEmptyObject | app/src/services/api.ts:181-183 | a 204 resolves to `{}` whatever its body |
| Api.Grant | app/src/services/api.ts:83-109 | a failed, non-OK or unreadable refresh call grants nothing; otherwise the token fields come from `json.data` when truthy, else from `json` |
| Api.ServiceGrant | app/src/hooks/use-auth.ts:253-258 | the service caller obtains tokens exactly when the call resolved to a non-null payload |
| Api.Classify | app/src/hooks/use-auth.ts:71-72 | only an ApiError is seen as an ApiError, with its status and message |
| Api.ErrorText | app/src/store/posts.ts:92-93 | an ApiError shows its message, anything else the fallback |
| Api.ApiCallsAppend | app/src/services/api.ts:148-167 | endpoint calls in a log add up over concatenation |
| Api.ApiClient.RefreshToken | app/src/services/api.ts:74-110 | without a refresh token: logout, false, no call; a grant updates the tokens and returns true; otherwise logout and false |
| Api.ApiClient.Request | app/src/services/api.ts:127-199 | header rule; refresh only on a 401 from a non-`/auth/` endpoint without skipAuth; retry once with the new id token; failed refresh rejects with 401 "Session expired"; one or two endpoint calls, and with two the result is the retry's |
| TokenRefresh.PlanFor | app/src/hooks/use-token-refresh.ts:19-72 | no expiry arms nothing; a delay of at most 0 refreshes now; otherwise one timer for expiry minus 300000 ms |
| TokenRefresh.TimerFiresBufferBeforeExpiry | app/src/hooks/use-token-refresh.ts:62-71 | an armed timer fires exactly five minutes before the expiry |
| TokenRefresh.HourGrantSchedules55Minutes | app/src/hooks/use-token-refresh.ts:76-82 | after an update with `expiresIn = 3600` the next timer is 3300000 ms |
| TokenRefresh.TokenRefresher.Schedule | app/src/hooks/use-token-refresh.ts:55-72 | the phase follows `PlanFor` of the store's time until expiry; only an immediate refresh sends a request |
| TokenRefresh.TokenRefresher.Perform | app/src/hooks/use-token-refresh.ts:74-76 | one refresh request with the captured token; phase Refreshing |
| TokenRefresh.TokenRefresher.Run | app/src/hooks/use-token-refresh.ts:50-89 | nothing happens unless the session is authenticated with a refresh token; otherwise it schedules |
| TokenRefresh.TokenRefresher.Fire | app/src/hooks/use-token-refresh.ts:69-71 | a pending timer starts the refresh; in any other phase nothing happens |
| TokenRefresh.TokenRefresher.Complete | app/src/hooks/use-token-refresh.ts:76-86 | a grant updates the tokens and schedules again; a failure logs out and arms nothing |
| TokenRefresh.TokenRefresher.CompleteIfMounted | app/src/hooks/use-token-refresh.ts:74-95 | the corrected completion: after teardown the reply is dropped, so the store is unchanged and no timer is armed |
| TokenRefresh.TokenRefresher.Teardown | app/src/hooks/use-token-refresh.ts:91-95 | cleanup clears a pending timer and does not cancel a refresh in flight |
| TokenRefresh.StaleRefreshRearms | app/src/hooks/use-token-refresh.ts:74-95 | a refresh that settles after logout and teardown writes tokens into the logged-out store and re-arms a timer nobody clears |
| UseAuth.UserFromClaims | app/src/hooks/use-auth.ts:53-58 | id is `sub`; email is the claim, else the typed email; name is the claim, else the email |
| UseAuth.NameFallsBackToEmail | app/src/hooks/use-auth.ts:57 | without a name claim the name equals the derived email |
| UseAuth.UserFieldsNonEmpty | app/src/hooks/use-auth.ts:56-57 | with a typed email, email and name are never empty |
| UseAuth.AfterLogin | app/src/hooks/use-auth.ts:44-97 | success stores the session; "not confirmed" (case-insensitive) sets the pending email with no error; any other failure sets the error; loading always ends |
| UseAuth.LoginFailureRouting | app/src/hooks/use-auth.ts:70-90 | a failed login sets exactly one of `pendingEmail` and `error` |
| UseAuth.Login | app/src/hooks/use-auth.ts:44-97 | the store ends in `AfterLogin`; the call resolves exactly when the tokens arrived and decoded |
| UseAuth.AccountError | app/src/hooks/use-auth.ts:116-176 | a 403 from register, confirm or resend becomes `REGISTRATION_DISABLED`; other ApiErrors show their message; other failures show the action's fallback |
| UseAuth.AfterAccountAction | app/src/hooks/use-auth.ts:99-233 | loading always ends; a failure sets the routed error and keeps the pending email; a success sets or clears the pending email as the action does |
| UseAuth.ForbiddenRouting | app/src/hooks/use-auth.ts:116-176 | a 403 yields `REGISTRATION_DISABLED` exactly for the registration actions |
| UseAuth.RunAccountAction | app/src/hooks/use-auth.ts:99-233 | the store ends in `AfterAccountAction` |
| UseAuth.Logout | app/src/hooks/use-auth.ts:235-245 | the store is logged out whether or not the service call fails |
| UseAuth.AfterRefreshAccessToken | app/src/hooks/use-auth.ts:247-265 | no refresh token: logout and false; otherwise true exactly on a grant, and a failure logs out |
| UseAuth.RefreshSuccessKeepsSession | app/src/hooks/use-auth.ts:253-260 | a successful refresh passes the grant to `updateTokens` and keeps user, refresh token and authentication |
| UseAuth.RefreshAccessToken | app/src/hooks/use-auth.ts:247-265 | the service is called exactly when a refresh token exists; state and result follow `AfterRefreshAccessToken` |
| UseAuth.AfterInitialize | app/src/hooks/use-auth.ts:267-286 | always ends initialised; with no refresh token, or a token not yet expired, only marks initialised |
| UseAuth.InitializeKeepsOrClears | app/src/hooks/use-auth.ts:267-286 | initialisation either keeps the session with renewed tokens or logs out |
| UseAuth.InitializeRenewsExpiredSession | app/src/hooks/use-auth.ts:272-279 | an expired session with a grant carrying a positive `expiresIn` is no longer expired |
| UseAuth.InitializeAuth | app/src/hooks/use-auth.ts:267-286 | the store ends in `AfterInitialize` |
| Envelope.BodyJson | backend/writeflow-sam-app/src/types/api.ts:17-22 | the envelope object holds `success` and exactly the defined members among `data`, `error` and `message` |
| Envelope.CreateResponse | backend/writeflow-sam-app/src/types/api.ts:24-36 | the given status, the standard headers and the envelope as body |
| Envelope.SuccessResponse | backend/writeflow-sam-app/src/types/api.ts:38-39 | body `{success: true, data}` |
| Envelope.ErrorResponse | backend/writeflow-sam-app/src/types/api.ts:41-42 | body `{success: false, error}` |
| Envelope.DefaultStatuses | backend/writeflow-sam-app/src/types/api.ts:38-42 | the defaults are 200 and 400 |
| Envelope.HeadersUniform | backend/writeflow-sam-app/src/types/api.ts:24-36 | headers depend on neither status nor body |
| RoundTrip.SuccessUnwrapsToData | app/src/services/api.ts:189-195 | a `successResponse(d)` with an OK status other than 204 reaches the caller as `d` |
| RoundTrip.ErrorCarriesMessage | app/src/services/api.ts:176-178 | an `errorResponse(m)` with non-empty `m` reaches the caller as ApiError(status, m) |
| RoundTrip.EmptyErrorFallsBack | app/src/services/api.ts:176-177 | an empty error message falls back to `HTTP error <status>` |
| RoundTrip.RefreshReadsEnvelope | app/src/services/api.ts:96-103 | the pipeline's refresh reads the tokens inside the backend's envelope |
| RoundTrip.ServiceReadsEnvelope | app/src/hooks/use-auth.ts:253-258 | a caller of the auth service reads the same tokens from the unwrapped payload |
| BackendSlug.StripMarks | backend/writeflow-sam-app/src/utils/slug.ts:7 | no combining mark U+0300 to U+036F remains; a string without marks is unchanged; a lone mark is removed |
| BackendSlug.StripMarksAppend | backend/writeflow-sam-app/src/utils/slug.ts:7 | marks are removed piecewise over concatenation, so with `StripMarks` the result is fixed on every input |
| BackendSlug.DashRuns | backend/writeflow-sam-app/src/utils/slug.ts:8 | only `a-z`, `0-9` and `-` remain, with no two dashes in a row; empty exactly for the empty input; starts with `-` exactly when the input starts outside `[a-z0-9]` |
| BackendSlug.DashRunsKeepsSlug | backend/writeflow-sam-app/src/utils/slug.ts:8 | a string of slug characters with no double dash is a fixed point of the dash rule |
| BackendSlug.TrimDash | backend/writeflow-sam-app/src/utils/slug.ts:9 | exactly one leading and one trailing dash are removed (the result is the slice between them, with its length fixed); on a string without double dashes no dash remains at either end |
| BackendSlug.GenerateSlug | backend/writeflow-sam-app/src/utils/slug.ts:3-11 | alphabet `[a-z0-9-]`, no `--`, at most 100 characters, no leading dash, a trailing dash only when the 100-character cut made it |
| BackendSlug.SlugOfSlug | backend/writeflow-sam-app/src/utils/slug.ts:3-11 | a slug with no dash at either end and at most 100 characters is its own slug |
| BackendSlug.GenerateSlugIdempotent | backend/writeflow-sam-app/src/utils/slug.ts:3-11 | slugging a slug gives it back, unless the cut left a trailing dash |
| BackendSlug.AttemptInjective | backend/writeflow-sam-app/src/utils/slug.ts:22 | distinct counters give distinct candidates |
| BackendSlug.NextAttemptIsNew | backend/writeflow-sam-app/src/utils/slug.ts:21-24 | each candidate differs from every earlier one, so the loop stops on a finite set |
| BackendSlug.FirstFreeUnique | backend/writeflow-sam-app/src/utils/slug.ts:18-26 | at most one slug is the first free candidate |
| BackendSlug.EnsureUniqueSlug | backend/writeflow-sam-app/src/utils/slug.ts:13-27 | returns the base when free, else `base-k` for the smallest free k ≥ 1; the result is never taken |
| ClientSlug.KeepAllowed | app/src/lib/posts.ts:12 | only word characters, white space and `-` remain, each taken from the input; a string of such characters is unchanged |
| ClientSlug.KeepAllowedOne | app/src/lib/posts.ts:12 | one character is kept exactly when it is a word character, white space or `-` |
| ClientSlug.KeepAllowedAppend | app/src/lib/posts.ts:12 | the filter works piecewise over concatenation, so kept characters stay in order |
| ClientSlug.DashSeps | app/src/lib/posts.ts:13 | characters other than `-` come from the input and are not separators; no `--`; empty exactly for the empty input; starts with `-` exactly when the input starts with a separator |
| ClientSlug.TrimDashes | app/src/lib/posts.ts:14 | no dash at either end; characters come from the input; no `--` is created; a string without end dashes is unchanged |
| ClientSlug.TrimDashesIsMiddle | app/src/lib/posts.ts:14 | the result is a slice of the input with only dashes outside it |
| ClientSlug.GenerateSlug | app/src/lib/posts.ts:8-15 | lower-case, no leading, trailing or doubled dash, alphabet `[a-z0-9-]` |
| ClientSlug.GenerateSlugIdempotent | app/src/lib/posts.ts:8-15 | slugging a slug gives it back |
| ClientSlug.SlugOfSlug | app/src/lib/posts.ts:8-15 | every well-formed slug is its own slug |
| ClientSlug.DashSepsKeepsSlug | app/src/lib/posts.ts:13 | on a well-formed string the dash rule changes nothing |
| ClientSlug.ClientSlugIsBackendSlug | app/src/lib/posts.ts:8-15 | a client slug of at most 100 characters is left unchanged by the backend's `generateSlug` |
| Runs.SkipShape | backend/writeflow-sam-app/src/utils/slug.ts:8 | skipping a run leaves a suffix of the input, everything skipped is in the class, and the rest does not start in it |
| Runs.SkipAppend | backend/writeflow-sam-app/src/utils/slug.ts:8 | a run that ends inside the first string does not reach the second |
| Runs.CollapseShape | backend/writeflow-sam-app/src/utils/slug.ts:8 | characters other than `-` come from the input and are outside the class; no `--` when `-` is in the class; the first character is `-` for a run, else the input's own |
| Runs.CollapsePlain | app/src/lib/posts.ts:13 | a string with no character of the class is unchanged |
| Runs.CollapseOfRun | app/src/lib/posts.ts:13 | a non-empty run of the class becomes exactly one `-` |
| Runs.CollapseAppend | app/src/lib/posts.ts:13 | strings that do not meet inside one run are rewritten independently |
| Runs.CollapseKeepsSingles | app/src/lib/posts.ts:13 | when `-` is the only class character present and no two dashes touch, the rewrite changes nothing |
| ContentKey.GenerateContentKey | backend/writeflow-sam-app/src/utils/s3.ts:37-39 | the key starts with `posts/<author>/` and ends with `<slug>.html` |
| ContentKey.KeyInjective | backend/writeflow-sam-app/src/utils/s3.ts:37-39 | for one author, distinct slugs give distinct keys |
| ContentKey.KeyNotOwnedByOther | backend/writeflow-sam-app/src/utils/s3.ts:37-39 | for author ids without `/`, another author's prefix check rejects the key |
| Posts.PostJson | backend/writeflow-sam-app/src/handlers/getPost.ts:48-51 | an object whose slug, title, author, status, creation and update times and content key are the record's, and whose `publishedAt` is the record's when set |
| Posts.PostJsonKeys | backend/writeflow-sam-app/src/handlers/getPost.ts:48-51 | exactly the record's seven members, plus `publishedAt` exactly when the record has one |
| Posts.PostJsonInjective | backend/writeflow-sam-app/src/handlers/getPost.ts:48-51 | distinct records serialise differently |
| CreatePost.Rejection | backend/writeflow-sam-app/src/handlers/createPost.ts:16-74 | 401 without `sub`; 400 without a body, for bad JSON, a blank title or a blank key; 403 for a key outside `posts/<sub>/`; a `null` body is a 500 |
| CreatePost.NewPost | backend/writeflow-sam-app/src/handlers/createPost.ts:44-56 | trimmed non-empty title, the caller as author, `createdAt == updatedAt == now`, status `input.status` or `draft`, `publishedAt` exactly when published |
| CreatePost.DefaultIsDraft | backend/writeflow-sam-app/src/handlers/createPost.ts:45-54 | without a status the post is a draft with no `publishedAt` |
| CreatePost.Handle | backend/writeflow-sam-app/src/handlers/createPost.ts:14-76 | a rejection changes nothing; a title with an empty slug answers 500 and changes nothing; otherwise a 201 with the new post under the first free slug of the title, with no existing record overwritten and no empty key stored |
| CreatePost.GeneratedKeyAccepted | backend/writeflow-sam-app/src/handlers/createPost.ts:35-39 | a key from `generateContentKey` passes the ownership check |
| UpdatePost.Rejection | backend/writeflow-sam-app/src/handlers/updatePost.ts:15-104 | 401, 400 (slug, body, bad JSON), 404, 403 (not the author), 403 (foreign content key), in this order; a `null` body is a 500 |
| UpdatePost.Updated | backend/writeflow-sam-app/src/handlers/updatePost.ts:50-83 | slug, author and creation time kept; `updatedAt` is now; given fields replace stored ones (title trimmed); `publishedAt` is set only on first publication |
| UpdatePost.Handle | backend/writeflow-sam-app/src/handlers/updatePost.ts:13-106 | a rejection changes nothing; otherwise only that record is replaced by the updated one, which is returned |
| UpdatePost.EmptyUpdateTouchesOnlyTime | backend/writeflow-sam-app/src/handlers/updatePost.ts:50-53 | an empty update changes only `updatedAt` |
| UpdatePost.UpdateKeepsKeys | backend/writeflow-sam-app/src/handlers/updatePost.ts:85-94 | the table stays keyed by slug |
| UpdatePost.ApplyAll | backend/writeflow-sam-app/src/handlers/updatePost.ts:50-83 | any series of updates keeps slug, author and creation time |
| UpdatePost.PublishedAtIsPermanent | backend/writeflow-sam-app/src/handlers/updatePost.ts:77-82 | once set, `publishedAt` survives every later update, unpublishing included |
| UpdatePost.FirstPublicationStamps | backend/writeflow-sam-app/src/handlers/updatePost.ts:77-82 | the first publication's time stays the publication time for good |
| GetPost.WithContent | backend/writeflow-sam-app/src/handlers/getPost.ts:48-51 | the stored post plus its `content` |
| GetPost.Handle | backend/writeflow-sam-app/src/handlers/getPost.ts:8-56 | 400 without a slug, 404 for missing or hidden posts, 500 for missing content, otherwise the post with its content |
| GetPost.HiddenLooksMissing | backend/writeflow-sam-app/src/handlers/getPost.ts:28-44 | a hidden post gets exactly the response its absence would give |
| GetPost.OwnerSeesOwnPosts | backend/writeflow-sam-app/src/handlers/getPost.ts:17-39 | on `/my/posts/` the post is returned exactly to its author |
| GetPost.PublicSeesPublished | backend/writeflow-sam-app/src/handlers/getPost.ts:40-43 | on the public path the post is returned exactly when published, whoever asks |
| DeletePost.Rejection | backend/writeflow-sam-app/src/handlers/deletePost.ts:10-37 | 401, 400, 404, 403 in that order, or none for the owner |
| DeletePost.Handle | backend/writeflow-sam-app/src/handlers/deletePost.ts:8-55 | a rejection changes nothing; content is deleted before the record; a failed write ends with 500 and leaves the later write undone; success removes both and returns the message |
| DeletePost.OrderOfWrites | backend/writeflow-sam-app/src/handlers/deletePost.ts:39-48 | the record is never gone while its content remains |
| ListPosts.DigitPrefix | backend/writeflow-sam-app/src/handlers/listPosts.ts:12 | the longest run of leading digits |
| ListPosts.ParseIntRendering | backend/writeflow-sam-app/src/handlers/listPosts.ts:12 | `parseInt` reads back the decimal rendering of every integer |
| ListPosts.NoDigitsIsNaN | backend/writeflow-sam-app/src/handlers/listPosts.ts:12 | a string without digits parses to NaN |
| ListPosts.PageLimit | backend/writeflow-sam-app/src/handlers/listPosts.ts:12 | 20 without a limit; never above 100; NaN exactly when the limit does not parse |
| ListPosts.LimitCapped | backend/writeflow-sam-app/src/handlers/listPosts.ts:12 | a numeric limit n gives `min(n, 100)` |
| ListPosts.StartKey | backend/writeflow-sam-app/src/handlers/listPosts.ts:16-23 | no token starts at the beginning; a token that does not decode is a bad token |
| ListPosts.ListItem | backend/writeflow-sam-app/src/handlers/listPosts.ts:91-100 | a list item drops `authorId` and `contentKey` |
| ListPosts.ListBody | backend/writeflow-sam-app/src/handlers/listPosts.ts:51-82 | one item per record in order; `nextToken` exactly when the page has a last key |
| ListPosts.IssuedQuery | backend/writeflow-sam-app/src/handlers/listPosts.ts:9-73 | `/my/posts` queries the caller's posts with an optional status filter; other paths query published posts |
| ListPosts.Handle | backend/writeflow-sam-app/src/handlers/listPosts.ts:7-89 | a bad token is a 400 before any query; 401 on `/my/posts` without `sub`; otherwise the issued query's page, or 500 when it fails |
| ListPosts.ListedPostsMatch | backend/writeflow-sam-app/src/handlers/listPosts.ts:28-69 | for an honest database, listed posts are stored ones and only the caller's (with the status asked for) or only published ones, at most the limit |
| ListPosts.NextTokenContinues | backend/writeflow-sam-app/src/handlers/listPosts.ts:16-82 | a page's `nextToken`, sent back with the same path, limit and filter, makes `Handle` issue the same query starting after that page's last key and answer with its page (or 500) |
| PostCache.Paged | app/src/store/posts.ts:85-87 | with a token the page is appended after the current posts, otherwise it replaces them |
| PostCache.PagesAccumulate | app/src/hooks/use-posts.ts:31-38 | a first page followed by its continuation lists both pages in order |
| PostCache.WithContent | app/src/store/posts.ts:167 | the response plus `content`; other members kept |
| PostCache.Merge | app/src/store/posts.ts:213 | every member of the response, and the old members it does not have |
| PostCache.MergeIdempotent | app/src/store/posts.ts:213 | merging the same response twice is merging it once |
| PostCache.MergeBySlug | app/src/store/posts.ts:212-214 | same length; posts with the slug get the response merged in, all others unchanged |
| PostCache.MergeKeepsSlugs | app/src/store/posts.ts:212-214 | a response for that slug leaves every post's slug where it was |
| PostCache.MergeBySlugStable | app/src/store/posts.ts:212-214 | a list without the slug is unchanged, and a second merge changes nothing |
| PostCache.RemoveSlug | app/src/store/posts.ts:235 | exactly the posts without the slug remain |
| PostCache.RemoveSlugAppend | app/src/store/posts.ts:235 | filtering distributes over concatenation, so order is kept |
| PostCache.RemoveAbsentSlug | app/src/store/posts.ts:235 | a list without the slug is left exactly as it is |
| PostCache.RemoveSlugIdempotent | app/src/store/posts.ts:235 | filtering twice is filtering once |
| PostCache.CurrentAfterUpdate | app/src/store/posts.ts:207-211 | with content, the response plus content; otherwise the response merged into a loaded post, or nothing |
| PostCache.UpdateKeepsLoadedContent | app/src/hooks/use-posts.ts:266-270 | an update without content keeps the loaded content |
| PostCache.CreateFlow | app/src/store/posts.ts:149-164 | content is uploaded under `generateSlug(title)`, then the post is created with the returned key; a failed upload creates nothing |
| PostCache.UpdateFlow | app/src/store/posts.ts:186-204 | an upload happens only with non-empty content, and its key goes into the update |
| PostCache.NoContentNoUpload | app/src/store/posts.ts:189 | without content the upload service does not affect the outcome |
| PostsStore.AfterFetchList | app/src/store/posts.ts:79-118 | append or replace, the response's token stored, error cleared; a failure keeps the list and sets the error; loading ends |
| PostsStore.AfterFetchPost | app/src/store/posts.ts:129-142 | the loaded post is the response, or the error is set |
| PostsStore.Failed | app/src/store/posts.ts:173-177 | a failure sets `postError`, ends saving and leaves the list alone |
| PostsStore.AfterCreate | app/src/store/posts.ts:145-179 | the new post goes first in the list and becomes the loaded post with its content; no flags left set |
| PostsStore.AfterUpdate | app/src/store/posts.ts:182-225 | merged by slug into the list and into the loaded post; `isUploading` reset only when it was set |
| PostsStore.AfterDelete | app/src/store/posts.ts:228-244 | exactly the posts with the slug leave; the loaded post is cleared only if it has that slug |
| PostsStore.AfterStatusChange | app/src/store/posts.ts:247-292 | merged into the list by slug and into a loaded post |
| PostsStore.FailureKeepsList | app/src/store/posts.ts:173-242 | every failure keeps the list and ends saving (and uploading where it was set) |
| PostsStore.DeleteRemovesSlug | app/src/store/posts.ts:233-237 | after a delete no listed post has the slug, and a second delete changes nothing |
| PostsStore.CreateThenDelete | app/src/store/posts.ts:166-237 | deleting a post just created gives back the list as it was |
| PostsStore.PostsStore.constructor | app/src/store/posts.ts:67-76 | the initial state |
| PostsStore.PostsStore.FetchList | app/src/store/posts.ts:79-118 | the state follows `AfterFetchList`; it throws exactly on failure |
| PostsStore.PostsStore.LoadMore | app/src/store/posts.ts:121-126 | a no-op that does not throw without a token; otherwise a fetch of the caller's posts after it, throwing exactly when that fetch fails |
| PostsStore.PostsStore.FetchPost | app/src/store/posts.ts:129-142 | the state follows `AfterFetchPost` |
| PostsStore.PostsStore.CreatePost | app/src/store/posts.ts:145-179 | the state follows `AfterCreate` of the create flow |
| PostsStore.PostsStore.UpdatePost | app/src/store/posts.ts:182-225 | the state follows `AfterUpdate` of the update flow |
| PostsStore.PostsStore.DeletePost | app/src/store/posts.ts:228-244 | the state follows `AfterDelete` |
| PostsStore.PostsStore.PublishPost | app/src/store/posts.ts:247-268 | sends status `published`; the state follows `AfterStatusChange`; throws exactly when the update fails |
| PostsStore.PostsStore.UnpublishPost | app/src/store/posts.ts:271-292 | sends status `draft`; the state follows `AfterStatusChange`; throws exactly when the update fails |
| PostsStore.PostsStore.ClearCurrentPost | app/src/store/posts.ts:295 | clears the loaded post and its error only |
| PostsStore.PostsStore.ClearError | app/src/store/posts.ts:298 | clears both errors only |
| UsePosts.AfterFetch | app/src/hooks/use-posts.ts:21-73 | append or replace, the response's token stored, or the error set on failure |
| UsePosts.HasMoreAfterFetch | app/src/hooks/use-posts.ts:92 | `hasMore` after a fetch holds exactly when the page carried a non-empty token |
| UsePosts.PostList.Fetch | app/src/hooks/use-posts.ts:21-73 | the state follows `AfterFetch` |
| UsePosts.PostList.LoadMore | app/src/hooks/use-posts.ts:75-85 | nothing, and no throw, without a token; otherwise the caller's posts after the stored token with the given status, throwing exactly when that fetch fails |
| UsePosts.Failed | app/src/hooks/use-posts.ts:221-229 | a failure sets the error and ends saving |
| UsePosts.AfterFetchPost | app/src/hooks/use-posts.ts:140-179 | the loaded post is the response, or the error is set |
| UsePosts.AfterCreate | app/src/hooks/use-posts.ts:188-232 | the loaded post is the response plus its content |
| UsePosts.AfterUpdate | app/src/hooks/use-posts.ts:239-288 | the loaded post becomes response plus content, the merge, or stays null |
| UsePosts.AfterDelete | app/src/hooks/use-posts.ts:290-306 | success clears the loaded post; failure sets the error |
| UsePosts.AfterStatusChange | app/src/hooks/use-posts.ts:311-354 | the response is merged only into a loaded post |
| UsePosts.PublishKeepsContent | app/src/hooks/use-posts.ts:320 | publishing keeps the loaded content |
| UsePosts.PostEditor.FetchPost | app/src/hooks/use-posts.ts:140-179 | the state follows `AfterFetchPost` |
| UsePosts.PostEditor.CreatePost | app/src/hooks/use-posts.ts:188-232 | uploads under `generateSlug(title)` before creating; the state follows `AfterCreate` |
| UsePosts.PostEditor.UpdatePost | app/src/hooks/use-posts.ts:239-288 | uploads only with non-empty content; the state follows `AfterUpdate` |
| UsePosts.PostEditor.DeletePost | app/src/hooks/use-posts.ts:290-306 | the state follows `AfterDelete` |
| UsePosts.PostEditor.PublishPost | app/src/hooks/use-posts.ts:311-330 | sends status `published`; the state follows `AfterStatusChange`; throws exactly when the update fails |
| UsePosts.PostEditor.UnpublishPost | app/src/hooks/use-posts.ts:335-354 | sends status `draft`; the state follows `AfterStatusChange`; throws exactly when the update fails |
| StoreAsWritten.ListBodyHasNoData | backend/writeflow-sam-app/src/handlers/listPosts.ts:78-83 | the list handler's page body has no `data` member |
| StoreAsWritten.ListReplyFails | app/src/store/posts.ts:84-96 | as written, every 200 reply of the list handler leaves the list and token unchanged and sets "Failed to fetch posts" |
| StoreAsWritten.PostBodyHasNoData | backend/writeflow-sam-app/src/handlers/getPost.ts:48-51 | a serialised record, with or without its content, has no `data` member |
| StoreAsWritten.PostReplyLoadsNothing | app/src/store/posts.ts:133-135 | as written, every post the get handler sends leaves no loaded post and no error |
| StoreAsWritten.MergeNothing | app/src/store/posts.ts:252-258 | spreading no members changes neither the list nor the loaded post |
| StoreAsWritten.StatusReplyMergesNothing | app/src/store/posts.ts:251-260 | as written, publishing, unpublishing and updating without content merge nothing of the returned record, and report success |
| StoreAsWritten.UploadServiceFails | app/src/services/upload.ts:42-60 | as written, the upload fails with a non-ApiError for every URL and key the upload-URL handler issues |
| StoreAsWritten.CreateFlowFails | app/src/store/posts.ts:149-164 | as written, every create flow fails at the upload, before the create call |
| StoreAsWritten.UpdateFlowFails | app/src/store/posts.ts:189-204 | as written, every update flow with content fails at the upload, before the update call |
| StoreAsWritten.StoreCreateFails | app/src/store/posts.ts:145-179 | as written, every `createPost` of the store ends in "Failed to create post" with the list untouched |
| StoreAsWritten.HookCreateFails | app/src/hooks/use-posts.ts:188-232 | as written, every `createPost` of the editor hook ends in "Failed to create post" |
| StoreAsWritten.StoreUpdateWithContentFails | app/src/store/posts.ts:182-225 | as written, every `updatePost` of the store with content ends in "Failed to update post" with the list untouched |
| Validations.TitleIssues | app/src/lib/validations.ts:7-10 | a title is accepted exactly when its length is 1 to 200; "Title is required" exactly for the empty title |
| Validations.ContentIsFree | app/src/lib/validations.ts:11 | acceptance does not depend on the content |
| Validations.PasswordIssues | app/src/lib/validations.ts:26-35 | each rule's message is reported exactly when that rule fails |
| Validations.PasswordRules | app/src/lib/validations.ts:26-35 | accepted exactly when long enough with a lower-case letter, a capital, a digit and a special character |
| Validations.AppendKeepsAccepted | app/src/lib/validations.ts:26-35 | appending characters to an accepted password keeps it accepted |
| Editor.Step | app/src/store/editor.ts:35-44 | each action changes only its fields; edits set dirty; reset restores the initial state; `markClean` clears only dirty |
| Editor.DirtyIffEdited | app/src/store/editor.ts:22-44 | from the initial state, dirty exactly when an edit was not followed by a reset or `markClean` |
| Editor.ResetAndClean | app/src/store/editor.ts:42-44 | reset is idempotent; `markClean` keeps the edits |
| Editor.EditorStore.constructor | app/src/store/editor.ts:22-28 | empty content and title, not dirty, no slug |
| Editor.EditorStore.SetContent | app/src/store/editor.ts:35-36 | content set, dirty |
| Editor.EditorStore.SetTitle | app/src/store/editor.ts:38 | title set, dirty |
| Editor.EditorStore.SetSlug | app/src/store/editor.ts:40 | only the slug changes |
| Editor.EditorStore.ResetEditor | app/src/store/editor.ts:42 | the initial state |
| Editor.EditorStore.MarkClean | app/src/store/editor.ts:44 | only dirty is cleared |
| ApiKey.Step | app/src/store/api-key.ts:17-19 | a new key resets validity; setting validity changes only it; clearing restores the initial state |
| ApiKey.KeyIsLastSet | app/src/store/api-key.ts:17-19 | the stored key is the last one set when no clear followed |
| ApiKey.ClearResets | app/src/store/api-key.ts:19 | a clear after any actions gives the initial state |
| ApiKey.ApiKeyStore.constructor | app/src/store/api-key.ts:15-16 | key and validity both null |
| ApiKey.ApiKeyStore.SetApiKey | app/src/store/api-key.ts:17 | stores the key and resets validity |
| ApiKey.ApiKeyStore.SetIsValid | app/src/store/api-key.ts:18 | only validity changes |
| ApiKey.ApiKeyStore.ClearApiKey | app/src/store/api-key.ts:19 | both reset |

## Left out

- Rendering, routing and forms are not modelled: the pages, components and layout. The toasts and `navigate` calls in the hooks are dropped. The publish-needs-content rule of the post form belongs to the UI.
- The single-flight refresh promise in the request pipeline is not modelled. Its point is concurrent waiters; the model runs one refresh per 401, one request at a time, with `isRefreshing` as a flag that is false between calls.
- The backend's Cognito handlers (login, register, confirm, resend, forgot and reset password, token refresh) are left out. They are thin SDK wrappers; the client sees only their outcomes.
- The HTML sanitisers are left out. They delegate entirely to DOMPurify and JSDOM.
- `fetch`, DynamoDB and S3 commands, presigned URLs, local storage and timers are left out. Their outcomes are parameters, the table and bucket are maps, and the persisted auth snapshot is `Partialize`/`Rehydrate`.
- `jwtDecode`, `Date.now`/`toISOString`, and base64 with JSON encoding of `nextToken` are parameters. The pagination round trip of a token is a hypothesis of `ListPosts.NextTokenContinues`.
- The request pipeline does not model the `Content-Type` and `x-api-key` request headers or a caller's extra headers.
- `login`'s fire-and-forget `resendCode` call is not modelled; its outcome is ignored by the source.
- JSON numbers are integers; floating point is left out.
- Non-string JSON values in typed fields (a numeric title, say) are not modelled. Request bodies are read into the handlers' input shapes by the `parse` parameter.
- The store and hooks are modelled over the payload the services deliver, which is what their code evidently intends. The store reads `.data` of a value the pipeline has already unwrapped (app/src/services/api.ts:189-195) in app/src/store/posts.ts at lines 86-88, 107-109, 134-135, 167-172, 207-213, 218, 252-257, 261, 276-281 and 285; app/src/services/upload.ts does the same at lines 48-58. `StoreAsWritten` models those reads as written, and "## Findings" gives what each does. The lines below name the members that model the intended reads instead.
- PostsStore.AfterFetchList: as written, every successful `fetchMyPosts` or `fetchPublicPosts` throws a TypeError inside `set`; the store ends with "Failed to fetch posts", the list unchanged, and the call rejected (`StoreAsWritten.ListReplyFails`).
- PostsStore.AfterFetchPost: as written, `fetchPost` sets the loaded post to undefined with no error and returns undefined (`StoreAsWritten.PostReplyLoadsNothing`).
- PostsStore.AfterCreate: as written, the upload always throws, so lines 157-172 of app/src/store/posts.ts are never reached and every create ends in "Failed to create post" (`StoreAsWritten.StoreCreateFails`).
- PostsStore.AfterUpdate: as written, an update with content fails at the upload (`StoreAsWritten.StoreUpdateWithContentFails`); one without content merges nothing and returns undefined (`StoreAsWritten.StatusReplyMergesNothing`).
- PostsStore.AfterStatusChange: as written, publishing and unpublishing merge nothing into the list or the loaded post, and return undefined (`StoreAsWritten.StatusReplyMergesNothing`).
- UsePosts.AfterCreate: the editor hook reads the payload itself, but it uploads through the same service, so as written every create there fails too (`StoreAsWritten.HookCreateFails`). So does every update with content (app/src/hooks/use-posts.ts:249-254).
- The values the store's actions return are not modelled; only their effect on the state and whether they throw are.
- A DynamoDB read that fails in `getPost`, and a conditional write that loses a race in `createPost`, both end in a 500. The model does not represent them: its table is consistent within one request. (The 500 for a title whose slug is empty is modelled.)
- BackendSlug.GenerateSlug: `normalize('NFD')` is not modelled; the input is taken as already decomposed, and only the removal of combining marks is modelled. A precomposed letter such as "É" (U+00C9) gives "e" in the source, because NFD splits it into "E" and U+0301; the model treats it as a character outside `[a-z0-9]`.
- JsString.ToLower: only the ASCII capitals are lowered; Unicode case mapping is not modelled. Some non-ASCII characters lower to ASCII in JavaScript: U+212A KELVIN SIGN gives "k", and U+0130 (capital I with dot above) gives "i" followed by U+0307. Both slug rules keep that "k" or "i"; the model drops the character.
- ClientSlug.GenerateSlug and BackendSlug.GenerateSlug: because of the two lines above, the model gives the empty slug for every title with no ASCII letter or digit. The source does so only when the title also has no precomposed Latin letter (backend) and no character that lowers to ASCII (both rules).
- ListPosts.PageLimit: digits are read as an exact integer. JavaScript's rounding of very long digit strings to a double, and what DynamoDB makes of a NaN, zero or negative limit, are left to the `db` parameter.
- ListPosts.ListedPostsMatch: what DynamoDB returns for a query is a hypothesis (`Answers`), not derived from a model of its indexes. `ScanIndexForward: false` ordering is not modelled.

Where the code and its docs differ, the model follows the code:
- `updatePost` accepts an empty (all-blank) title, which `createPost` rejects.
- When a refresh succeeds but its reply carries neither `idToken` nor `accessToken`, `updateTokens` stores `idToken ?? accessToken`, which is undefined. The retry in app/src/services/api.ts:161-167 then sends `Bearer undefined`; `Api.RetryHeader` renders that literally. A refresh that fails throws "Session expired" and is never retried.

## Findings

| source | as written | input that shows it | evidently intended | confidence | as-written member | corrected member |
|---|---|---|---|---|---|---|
| app/src/store/posts.ts:84-90 | the list updater reads `response.data.posts`, but the pipeline has already unwrapped the envelope, so `response` is `{posts, nextToken}` and `response.data` is undefined; the same at lines 105-111 | `fetchMyPosts()` answered with status 200 and `{"success":true,"data":{"posts":[]}}`: the read throws a TypeError inside `set`, the catch block sets "Failed to fetch posts", keeps the list and rethrows | the page replaces or extends the list and its token is stored | not executed | StoreAsWritten.ListReplyFails | PostsStore.AfterFetchList |
| app/src/store/posts.ts:133-135 | `currentPost` is set to `response.data`, which is undefined on the unwrapped payload | `fetchPost("hello")` answered with the post and its content: the loaded post is undefined and no error is set | the loaded post is the reply | not executed | StoreAsWritten.PostReplyLoadsNothing | PostsStore.AfterFetchPost |
| app/src/store/posts.ts:251-260 | `{ ...p, ...response.data }` spreads undefined, so nothing of the reply is merged; the same at lines 275-284 and, without content, 206-214 | `publishPost("hello")` on a listed draft: the update handler answers with the record in status `published`, and the list still shows `draft` | the reply is merged into the listed and the loaded post | not executed | StoreAsWritten.StatusReplyMergesNothing | PostsStore.AfterStatusChange |
| app/src/services/upload.ts:48-54 | `const { data } = await getUploadUrl(...)` destructures `data` from the already unwrapped `{uploadUrl, contentKey, expiresIn}`, and `data.uploadUrl` throws a TypeError | `createPost({title: "Hello", content: "<p>x</p>"})` in the store or the editor hook: it fails with "Failed to create post" before any create call | the content is uploaded and its key goes into the create or update | not executed | StoreAsWritten.UploadServiceFails | PostCache.CreateFlow |
| app/src/hooks/use-token-refresh.ts:74-95 | a refresh still in flight when the effect is torn down still calls `updateTokens` and `scheduleRefresh`, after the cleanup has already run | the token is within five minutes of expiry at mount, so the refresh starts at once; the user logs out before it settles; it then settles with `expiresIn = 3600`. The logged-out store holds new tokens, and a 55-minute timer is armed that no cleanup clears | a refresh that settles after teardown is dropped: no store write, no timer | not executed | TokenRefresh.StaleRefreshRearms | TokenRefresh.TokenRefresher.CompleteIfMounted |
