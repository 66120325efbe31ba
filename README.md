# Templify core, modelled in Dafny

Templify is a web application for designing business cards and frames from templates. This project models its core:

- **React client.** The `ApiClient` wrapper around `fetch`, with interceptors, retries and exponential backoff. The authentication and template stores (reducers and effects). The signup, profile, saved-designs and customisation pages.
- **User-panel Express server.** The error handler, the authentication middleware, the multer upload configuration, the helpers and the Mongoose schemas. The frame-with-elements controller.
- **Admin server.** The frame upload route.

Each source file is one Dafny module:

- **Pure code** becomes datatypes, functions and lemmas.
- **Stateful code** becomes a `class` whose methods change its fields and state the whole new state in `ensures`:
  - the `ApiClient` instance and its `localStorage`;
  - the signup and profile forms;
  - the auth store;
  - the design editor;
  - a document being saved;
  - a collection under a unique index.
- **Loops** become `while` loops with invariants: the retry loop and the element-saving loops of both servers.
- **Sequences of conditional updates** become methods proved equal to a specification function: the password-strength checks and the form validations.

Shared modules:

- `Wrappers` holds `Option`.
- `Js` holds JavaScript values: truthiness, `||`, property reads, `trim`, `toLowerCase`, `parseInt` and number-to-string.
- `Seqs` holds filters and subsequences.
- `Patterns` holds the email and phone-number regular expressions, written as predicates.
- `SchemaSlug` holds the slug expression that three schemas share.
- `MultipartFields` holds how a multipart field arrives: absent, one value or many.
- `Mongoose` holds the two errors a `save` rejects with.

Calls into code the model cannot see are parameters of the operations:

- `fetch`;
- `jwt.verify`;
- `User.findById`;
- the frame's `save`;
- the clock;
- the environment's base URL.

## Model

| member | source | states |
|---|---|---|
| Api.NewApiError | AWT_PROJECT_USER_PANEL/client/src/lib/api.js:216-222 | An error keeps its message; its status defaults to 500 and its data to null. |
| Api.StatusClassesDisjoint | AWT_PROJECT_USER_PANEL/client/src/lib/api.js:224-246 | No error is both a client and a server error. 401, 403 and 404 are client errors, and so is every non-retryable status. |
| Api.DefaultStatusIsServerError | AWT_PROJECT_USER_PANEL/client/src/lib/api.js:216-234 | An error built without a status is a server error, not a client error. |
| Api.BaseConfig | AWT_PROJECT_USER_PANEL/client/src/lib/api.js:90-97 | The request defaults to GET with a JSON content type. Options given by the caller replace the defaults, and the body passes through. |
| Api.WithAuth | AWT_PROJECT_USER_PANEL/client/src/lib/api.js:25-34 | A stored non-empty token adds `Authorization: Bearer <token>` and changes nothing else. Without one the configuration is unchanged. |
| Api.InterceptorRunsLast | AWT_PROJECT_USER_PANEL/client/src/lib/api.js:51-53 | Appending an interceptor makes it run last, on the output of those registered before it. |
| Api.FalsyInterceptorKeepsConfig | AWT_PROJECT_USER_PANEL/client/src/lib/api.js:64-68 | An interceptor returning a falsy value leaves the configuration as it was (`interceptor(config) \|\| config`). |
| Api.AttemptResult | AWT_PROJECT_USER_PANEL/client/src/lib/api.js:105-136 | A network failure is a non-API error carrying the fetch's message. |
| Api.AttemptCases | AWT_PROJECT_USER_PANEL/client/src/lib/api.js:105-136 | An error status with a `null` body fails with the TypeError of reading `message`, not an ApiError. Any other error status throws an ApiError with the response status, the body as data, and the body's `message` or `HTTP <status>`. A successful response without JSON fails with a parse error. Otherwise the response interceptors' result is the data iff it is a truthy object or array; if not, the error is "Invalid response format" with status 500. |
| Api.HttpErrorMessage | AWT_PROJECT_USER_PANEL/client/src/lib/api.js:119-120 | The message is the body's truthy `message`, else `HTTP <status>`. |
| Api.NullErrorBodyIsRetried | AWT_PROJECT_USER_PANEL/client/src/lib/api.js:116-152 | The TypeError from a `null` error body is retried, and even for a 401 it leaves the session in storage. |
| Api.AfterErrorInterceptors | AWT_PROJECT_USER_PANEL/client/src/lib/api.js:76-81 | On a 401, the session-clearing interceptor removes `token` and `user` from storage. Otherwise storage is untouched. |
| Api.Delays | AWT_PROJECT_USER_PANEL/client/src/lib/api.js:153 | The wait after failed attempt k is `retryDelay * 2^k`. |
| Api.BackoffDoubles | AWT_PROJECT_USER_PANEL/client/src/lib/api.js:153 | Each wait is twice the one before it. |
| Api.Settled | AWT_PROJECT_USER_PANEL/client/src/lib/api.js:136-149 | A successful last attempt resolves with its data; a failed one rejects with its error. |
| Api.NumberOr | AWT_PROJECT_USER_PANEL/client/src/lib/api.js:14-17 | `config.x \|\| default`: a missing or zero option gives the default; any other value is kept. |
| Api.ZeroRetriesFallsBack | AWT_PROJECT_USER_PANEL/client/src/lib/api.js:16 | A configured retry count of 0 is replaced by the default 3. |
| Api.ApiClient.constructor | AWT_PROJECT_USER_PANEL/client/src/lib/api.js:13-35 | Falsy options take their defaults, and the auth interceptor is the only interceptor. |
| Api.ApiClient.SetAuthToken | AWT_PROJECT_USER_PANEL/client/src/lib/api.js:42-48 | A truthy token is stored as a string; a falsy one removes the stored token. Nothing else changes. |
| Api.ApiClient.AddRequestInterceptor | AWT_PROJECT_USER_PANEL/client/src/lib/api.js:51-53 | The interceptor is appended to the request interceptors; nothing else changes. |
| Api.ApiClient.AddResponseInterceptor | AWT_PROJECT_USER_PANEL/client/src/lib/api.js:55-57 | The interceptor is appended to the response interceptors; nothing else changes. |
| Api.ApiClient.AddErrorInterceptor | AWT_PROJECT_USER_PANEL/client/src/lib/api.js:59-61 | The interceptor is appended to the error interceptors; nothing else changes. |
| Api.ApiClient.Request | AWT_PROJECT_USER_PANEL/client/src/lib/api.js:89-156 | With retryAttempts ≥ 0, between 1 and retryAttempts+1 attempts are made. Every attempt but the last failed with a retryable error. The last stops the loop, or is attempt retryAttempts. The result settles from the last attempt, and the waits follow the backoff. A rejection passes through the error interceptors' storage effect. A negative count makes no attempt. |
| Api.Utf8 | AWT_PROJECT_USER_PANEL/client/src/lib/api.js:160 | A code point becomes 1 to 4 bytes, each below 256. |
| Api.FormEncodeHasNoSeparator | AWT_PROJECT_USER_PANEL/client/src/lib/api.js:160 | Form-encoded text never contains `&`, `=` or `?`, so a value cannot split the query string. |
| Api.PercentBytesShape | AWT_PROJECT_USER_PANEL/client/src/lib/api.js:160 | Percent-encoded bytes never contain a separator. |
| Api.QueryString | AWT_PROJECT_USER_PANEL/client/src/lib/api.js:160 | The query string is empty exactly when there are no parameters. |
| Api.GetCall | AWT_PROJECT_USER_PANEL/client/src/lib/api.js:159-163 | `?` and the query are appended only when there are parameters. The call uses the request defaults. |
| Api.SendCall | AWT_PROJECT_USER_PANEL/client/src/lib/api.js:165-198 | FormData goes unchanged, with no headers. Other data goes as JSON text with a JSON content type. |
| Api.PatchCall | AWT_PROJECT_USER_PANEL/client/src/lib/api.js:200-206 | A PATCH always sends JSON. |
| Api.DeleteCall | AWT_PROJECT_USER_PANEL/client/src/lib/api.js:208-212 | A DELETE sends no body. |
| Api.Dispatch | AWT_PROJECT_USER_PANEL/client/src/lib/api.js:367-380 | The method is matched case-insensitively: GET, POST and PUT (body or `{}`, as JSON), PATCH (body or `{}`) and DELETE use their calls. Any other method goes to `request` with that method and the raw body. Every call goes to the given path. |
| Api.Legacy | AWT_PROJECT_USER_PANEL/client/src/lib/api.js:381-386 | The rethrown error carries the ApiError's status, or none for other errors, and its message is never empty. |
| Api.UrlsArePrefixed | AWT_PROJECT_USER_PANEL/client/src/lib/api.js:102 | Every request URL starts with the base URL followed by `/api`. |
| Api.ApiRequest | AWT_PROJECT_USER_PANEL/client/src/lib/api.js:359-387 | The call made is the one Dispatch selects. The token, if truthy, is stored first. The request settles to `Run` over the client's URL, its configuration built from the new storage, its response interceptors and its retry count; no attempt is made iff the retry count is negative. A resolved request returns its data; a rejected one throws the legacy error; no attempt returns nothing. The storage is the token's, then the error interceptors' effect on a rejection. No other client field changes. |
| Api.RunFrom | AWT_PROJECT_USER_PANEL/client/src/lib/api.js:104-155 | From attempt k, between k+1 and retryAttempts+1 attempts are made, and the request always settles. |
| Api.Run | AWT_PROJECT_USER_PANEL/client/src/lib/api.js:104-155 | No attempt is made, and the result is `undefined`, iff the retry count is negative; otherwise at most retryAttempts+1 attempts. |
| Api.RunFromLast | AWT_PROJECT_USER_PANEL/client/src/lib/api.js:137-155 | The last attempt stops the loop unless it is attempt retryAttempts, and the request settles with its result. |
| Api.RunFromEarlier | AWT_PROJECT_USER_PANEL/client/src/lib/api.js:143-153 | Every attempt before the last failed with a retryable error. |
| Api.RunFromSettles | AWT_PROJECT_USER_PANEL/client/src/lib/api.js:104-155 | Conversely, a count of attempts whose earlier attempts were retried and whose last one stops the loop, together with the last one's result, is exactly what the loop returns. |
| Api.TokenIn | AWT_PROJECT_USER_PANEL/client/src/lib/api.js:38-40 | The token is present iff storage has a `token` key, and it is that value. |
| Api.StoreToken | AWT_PROJECT_USER_PANEL/client/src/lib/api.js:362-364 | A truthy token is stored as a string; otherwise storage is unchanged. |
| Api.Pow2Adds | AWT_PROJECT_USER_PANEL/client/src/lib/api.js:153 | Powers of two multiply: the wait after attempt a+b is 2^b times the wait after attempt a. |
| Api.DelaysGrow | AWT_PROJECT_USER_PANEL/client/src/lib/api.js:153 | Each failed attempt appends its own wait to the waits so far. |
| Api.StoredTokenIsSent | AWT_PROJECT_USER_PANEL/client/src/lib/api.js:25-34 | With the default interceptors, a stored token is exactly the Bearer header sent. |
| SignupPage.CheckPasswordStrength | AWT_PROJECT_USER_PANEL/client/src/pages/SignupPage.jsx:30-65 | The five checks return the specified score and feedback: one point per criterion met, one hint per criterion missed. |
| SignupPage.Grade | AWT_PROJECT_USER_PANEL/client/src/pages/SignupPage.jsx:34-38 | One check: meeting it adds a point, missing it appends its hint. |
| SignupPage.ScoreOfFive | AWT_PROJECT_USER_PANEL/client/src/pages/SignupPage.jsx:34-62 | The score is the number of the five criteria met: length ≥ 8, a lower-case letter, an upper-case letter, a digit, a special character. The feedback is the hints of the missed criteria, in criterion order. |
| SignupPage.CountPlusMissing | AWT_PROJECT_USER_PANEL/client/src/pages/SignupPage.jsx:34-62 | Points plus hints account for every criterion exactly once. |
| SignupPage.ScorePlusFeedbackIsFive | AWT_PROJECT_USER_PANEL/client/src/pages/SignupPage.jsx:34-62 | The score is at most 5, and score plus feedback length is 5. |
| SignupPage.MissingIsSubsequence | AWT_PROJECT_USER_PANEL/client/src/pages/SignupPage.jsx:34-62 | The hints given keep the order of the criteria. |
| SignupPage.MissingMembers | AWT_PROJECT_USER_PANEL/client/src/pages/SignupPage.jsx:34-62 | A hint is given exactly when its criterion fails. |
| SignupPage.FeedbackInOrder | AWT_PROJECT_USER_PANEL/client/src/pages/SignupPage.jsx:34-62 | The feedback is in criterion order, and hint i is present iff criterion i fails. |
| SignupPage.CountMonotone | AWT_PROJECT_USER_PANEL/client/src/pages/SignupPage.jsx:34-62 | Meeting more criteria never gives fewer points. |
| SignupPage.AppendNeverLowersScore | AWT_PROJECT_USER_PANEL/client/src/pages/SignupPage.jsx:34-62 | Typing more characters never lowers the score. |
| SignupPage.StrengthText | AWT_PROJECT_USER_PANEL/client/src/pages/SignupPage.jsx:142-146 | Weak iff score ≤ 2, Fair iff 3, Strong iff ≥ 4. |
| SignupPage.StrengthColor | AWT_PROJECT_USER_PANEL/client/src/pages/SignupPage.jsx:135-139 | Red iff score ≤ 2, yellow iff 3, green iff ≥ 4. |
| SignupPage.AcceptedPasswordNotWeak | AWT_PROJECT_USER_PANEL/client/src/pages/SignupPage.jsx:115-119 | A password the form accepts (score ≥ 3) is never shown as Weak or red. |
| SignupPage.LowercaseOnlyIsWeak | AWT_PROJECT_USER_PANEL/client/src/pages/SignupPage.jsx:34-62 | Eight lower-case letters score 2, which is Weak. |
| SignupPage.FormErrorsByField | AWT_PROJECT_USER_PANEL/client/src/pages/SignupPage.jsx:102-132 | Each field has an error iff its rule fails, with the exact message, and only form fields get errors. Rules: a blank company name; a blank or malformed email; an empty password or score < 3; an empty or non-international mobile; a blank address. |
| SignupPage.FormErrors | AWT_PROJECT_USER_PANEL/client/src/pages/SignupPage.jsx:102-132 | The errors `validateForm` returns. Its meaning is stated by `FormErrorsByField`, and `SignupForm.ValidateForm` is proved equal to it. |
| SignupPage.ErrorsOfByField | AWT_PROJECT_USER_PANEL/client/src/pages/SignupPage.jsx:102-132 | Over any outcome of the five checks, a field has an error iff its check fails. When both of a field's tests fail, the `required` message wins. Only form fields get errors. |
| SignupPage.InitialFieldsValid | AWT_PROJECT_USER_PANEL/client/src/pages/SignupPage.jsx:9-27 | The initial form holds every field, and its empty password scores 0, which is the initial score. |
| SignupPage.AsWrittenSignupMissesRoute | AWT_PROJECT_USER_PANEL/client/src/pages/SignupPage.jsx:160 | The signup posts to `base/api/api/auth/signup`, which is not the server's signup route. |
| SignupPage.CorrectedSignupReachesRoute | AWT_PROJECT_USER_PANEL/server/src/app.js:22 | The endpoint `/auth/signup` reaches the server's `/api/auth/signup`. |
| SignupPage.SignupForm.constructor | AWT_PROJECT_USER_PANEL/client/src/pages/SignupPage.jsx:9-27 | The form starts empty, with no errors, score 0 and not loading. |
| SignupPage.SignupForm.HandleInputChange | AWT_PROJECT_USER_PANEL/client/src/pages/SignupPage.jsx:68-99 | A `social.` name updates that social link; any other name updates its field. The field's error is cleared, and a password change rescores. |
| SignupPage.SignupForm.SetValue | AWT_PROJECT_USER_PANEL/client/src/pages/SignupPage.jsx:71-85 | A `social.` name updates that social link, any other name its field. Errors, score and loading flag are unchanged. |
| SignupPage.SignupForm.ValidateForm | AWT_PROJECT_USER_PANEL/client/src/pages/SignupPage.jsx:102-132 | The checks computed step by step equal the specified form errors. |
| SignupPage.SignupForm.HandleSubmit | AWT_PROJECT_USER_PANEL/client/src/pages/SignupPage.jsx:148-168 | The request is sent iff the form has no errors, to the corrected endpoint `/auth/signup`. Otherwise the errors are shown and nothing is posted. On failure the errors are replaced by a non-empty `general` error alone. On success the errors stay as they were. Once sent, the signup succeeds iff the client's request for that call does not reject. Fields and score never change. |
| SignupPage.SignupForm.Post | AWT_PROJECT_USER_PANEL/client/src/pages/SignupPage.jsx:156-167 | The form is posted to the corrected endpoint `/auth/signup`, not the source's `/api/auth/signup` (see Findings). Loading ends whatever the outcome. The signup succeeds iff the client's request for that call does not reject. A failure sets the errors to `general` alone, holding the rethrown error's message; a success leaves the errors alone. |
| SignupPage.SignupFallbackUnreachable | AWT_PROJECT_USER_PANEL/client/src/pages/SignupPage.jsx:164 | The `'Signup failed'` fallback is never used: a rethrown error always has a message. |
| FormInput.Segment | AWT_PROJECT_USER_PANEL/client/src/pages/SignupPage.jsx:71-85 | The social key is a prefix of the rest of the name and contains no dot. |
| FormInput.SocialKeyOfPlainKey | AWT_PROJECT_USER_PANEL/client/src/pages/SignupPage.jsx:71-85 | `social.k` updates the key `k`. |
| FormInput.SocialKeyIgnoresRest | AWT_PROJECT_USER_PANEL/client/src/pages/SignupPage.jsx:71-85 | In `social.k.rest`, only `k` is used. |
| FormInput.ClearError | AWT_PROJECT_USER_PANEL/client/src/pages/ProfilePage.jsx:52-57 | A field's error is cleared (set to the empty string); the other errors stay. |
| FormInput.CheckField | AWT_PROJECT_USER_PANEL/client/src/pages/ProfilePage.jsx:75-99 | One `if / else if` test: the missing message wins over the invalid one, and without either the errors are unchanged. |
| ProfilePage.TextOr | AWT_PROJECT_USER_PANEL/client/src/pages/ProfilePage.jsx:12-16 | `user?.x \|\| ''`: a string is kept; a falsy value gives the empty string. |
| ProfilePage.UserFields | AWT_PROJECT_USER_PANEL/client/src/pages/ProfilePage.jsx:12-16 | The profile fields are filled from the user's properties. |
| ProfilePage.UserSocialLinks | AWT_PROJECT_USER_PANEL/client/src/pages/ProfilePage.jsx:17-22 | The social links are filled from the user's `socialLinks`. |
| ProfilePage.NoUserGivesEmptyForm | AWT_PROJECT_USER_PANEL/client/src/pages/ProfilePage.jsx:12-22 | Without a user, every field is empty. |
| ProfilePage.TenDigitsNotBlank | AWT_PROJECT_USER_PANEL/client/src/pages/ProfilePage.jsx:88-92 | A mobile that passes the ten-digit check is never blank, so the two mobile rules agree. |
| ProfilePage.ProfileErrorsByField | AWT_PROJECT_USER_PANEL/client/src/pages/ProfilePage.jsx:75-99 | Each field has an error iff its rule fails, with its message, and only form fields get errors. Rules: blank company name or address; a blank or malformed email ("Email is required" over "Invalid email format"); a mobile that is not ten digits after removing spaces and hyphens ("Mobile number is required" for a blank one). |
| ProfilePage.ProfileErrors | AWT_PROJECT_USER_PANEL/client/src/pages/ProfilePage.jsx:75-99 | The errors of the profile form. Its meaning is stated by `ProfileErrorsByField`, and `ProfileForm.ValidateForm` is proved equal to it. |
| ProfilePage.ErrorsOfByField | AWT_PROJECT_USER_PANEL/client/src/pages/ProfilePage.jsx:75-99 | Over any outcome of the checks, a field has an error iff its check fails, with each field's exact message. For email and mobile the `required` message wins over the format message. Only form fields get errors. |
| ProfilePage.PasswordFormAccepted | AWT_PROJECT_USER_PANEL/client/src/pages/ProfilePage.jsx:101-121 | The password form passes iff the current password is given, the new one has at least 8 characters, and the confirmation matches. A non-empty mismatch is reported as one. |
| ProfilePage.PasswordErrors | AWT_PROJECT_USER_PANEL/client/src/pages/ProfilePage.jsx:101-121 | The errors of the password form. Its meaning is stated by `PasswordFormAccepted`, and `ProfileForm.ValidatePasswordForm` is proved equal to it. |
| ProfilePage.ProfileForm.constructor | AWT_PROJECT_USER_PANEL/client/src/pages/ProfilePage.jsx:12-31 | The form is filled from the user, and starts with no errors, not editing and no password form. |
| ProfilePage.ProfileForm.HandleInputChange | AWT_PROJECT_USER_PANEL/client/src/pages/ProfilePage.jsx:34-58 | A social or plain field is updated and its error cleared; the passwords and flags are unchanged. |
| ProfilePage.ProfileForm.HandlePasswordChange | AWT_PROJECT_USER_PANEL/client/src/pages/ProfilePage.jsx:60-73 | Only the password data changes, and the field's error is cleared. |
| ProfilePage.ProfileForm.ValidateForm | AWT_PROJECT_USER_PANEL/client/src/pages/ProfilePage.jsx:75-99 | The errors computed step by step equal the specified profile errors. |
| ProfilePage.ProfileForm.ValidatePasswordForm | AWT_PROJECT_USER_PANEL/client/src/pages/ProfilePage.jsx:101-121 | The errors computed step by step equal the specified password errors. |
| ProfilePage.ProfileForm.HandleSaveProfile | AWT_PROJECT_USER_PANEL/client/src/pages/ProfilePage.jsx:123-134 | An update is produced iff the profile has no errors. The update is the fields plus the social links, and editing ends; otherwise the errors are shown. |
| ProfilePage.ProfileForm.HandleChangePassword | AWT_PROJECT_USER_PANEL/client/src/pages/ProfilePage.jsx:136-152 | The change succeeds iff the password form is valid. Then the passwords are cleared and the form closes; otherwise the errors are shown. |
| ProfilePage.ProfileForm.HandleCancel | AWT_PROJECT_USER_PANEL/client/src/pages/ProfilePage.jsx:154-169 | The fields go back to the user's values, editing stops and the errors are cleared. |
| SavedDesignsPage.SearchKeepsMatches | AWT_PROJECT_USER_PANEL/client/src/pages/SavedDesignsPage.jsx:14-17 | The search keeps exactly the designs whose name contains the term, case-insensitively, in their order. |
| SavedDesignsPage.Search | AWT_PROJECT_USER_PANEL/client/src/pages/SavedDesignsPage.jsx:14-17 | The case-insensitive name filter. Its meaning is stated by `SearchKeepsMatches` and `EmptySearchKeepsAll`. |
| SavedDesignsPage.EmptySearchKeepsAll | AWT_PROJECT_USER_PANEL/client/src/pages/SavedDesignsPage.jsx:14-17 | An empty search term keeps every design. |
| SavedDesignsPage.LocaleCompare | AWT_PROJECT_USER_PANEL/client/src/pages/SavedDesignsPage.jsx:23-26 | The comparison is -1, 0 or 1. |
| SavedDesignsPage.LocaleCompareAntisymmetric | AWT_PROJECT_USER_PANEL/client/src/pages/SavedDesignsPage.jsx:23-26 | Swapping the arguments negates the result, and 0 means equal names. |
| SavedDesignsPage.LocaleCompareTransitive | AWT_PROJECT_USER_PANEL/client/src/pages/SavedDesignsPage.jsx:23-26 | The name order is transitive. |
| SavedDesignsPage.CompareIsTotalPreorder | AWT_PROJECT_USER_PANEL/client/src/pages/SavedDesignsPage.jsx:18-27 | Every sort key gives a consistent comparator, so the sort is well defined. |
| SavedDesignsPage.Insert | AWT_PROJECT_USER_PANEL/client/src/pages/SavedDesignsPage.jsx:18-27 | Inserting adds exactly the one design. |
| SavedDesignsPage.InsertInFront | AWT_PROJECT_USER_PANEL/client/src/pages/SavedDesignsPage.jsx:18-27 | An entry ordered before the head of a sorted list keeps it sorted when put in front. |
| SavedDesignsPage.InsertMembers | AWT_PROJECT_USER_PANEL/client/src/pages/SavedDesignsPage.jsx:18-27 | Insertion brings in no entry other than the inserted one and those of the list. |
| SavedDesignsPage.InsertAfterHead | AWT_PROJECT_USER_PANEL/client/src/pages/SavedDesignsPage.jsx:18-27 | A sorted tail made of the inserted entry and the rest stays sorted behind a head not after the entry. |
| SavedDesignsPage.InsertAtEnd | AWT_PROJECT_USER_PANEL/client/src/pages/SavedDesignsPage.jsx:18-27 | With an unknown sort key every comparison is 0, so insertion appends. |
| SavedDesignsPage.InsertKeepsSorted | AWT_PROJECT_USER_PANEL/client/src/pages/SavedDesignsPage.jsx:18-27 | Inserting into a sorted list keeps it sorted. |
| SavedDesignsPage.SortIsOrderedPermutation | AWT_PROJECT_USER_PANEL/client/src/pages/SavedDesignsPage.jsx:18-27 | The sorted list is ordered by the comparator and is a permutation of the input. |
| SavedDesignsPage.Sort | AWT_PROJECT_USER_PANEL/client/src/pages/SavedDesignsPage.jsx:18-27 | An insertion sort under the page's comparator. Its meaning is stated by `SortIsOrderedPermutation` and `UnknownKeyKeepsOrder`. |
| SavedDesignsPage.UnknownKeyKeepsOrder | AWT_PROJECT_USER_PANEL/client/src/pages/SavedDesignsPage.jsx:18-27 | An unknown sort key leaves the designs in their order. |
| SavedDesignsPage.FilteredDesignsShown | AWT_PROJECT_USER_PANEL/client/src/pages/SavedDesignsPage.jsx:14-27 | The shown list is a permutation of the matching designs. It is newest first for `newest`, oldest first for `oldest`, and by name for `name`. |
| SavedDesignsPage.FilteredDesigns | AWT_PROJECT_USER_PANEL/client/src/pages/SavedDesignsPage.jsx:14-27 | The search, then the sort. Its meaning is stated by `FilteredDesignsShown`. |
| SavedDesignsPage.HandleDelete | AWT_PROJECT_USER_PANEL/client/src/pages/SavedDesignsPage.jsx:42-46 | The delete is attempted iff it is confirmed; an unconfirmed delete changes nothing. |
| TemplateContext.ReplaceById | AWT_PROJECT_USER_PANEL/client/src/contexts/TemplateContext.jsx:33-39 | Every design with the payload's id is replaced by it; the others stay. |
| TemplateContext.Reduce | AWT_PROJECT_USER_PANEL/client/src/contexts/TemplateContext.jsx:11-50 | Each action changes only its part of the state. Filters are merged key by key with the payload winning; saves append; updates replace by `id`; a delete keeps, in order, exactly the designs whose `id` is not the given one. An unknown action changes nothing. |
| TemplateContext.DeleteKeepsOthers | AWT_PROJECT_USER_PANEL/client/src/contexts/TemplateContext.jsx:40-46 | A design is kept by a delete iff it was stored and its `id` differs from the given one. |
| TemplateContext.EmptyFiltersChangeNothing | AWT_PROJECT_USER_PANEL/client/src/contexts/TemplateContext.jsx:183 | Merging an empty filter object leaves the state unchanged. |
| TemplateContext.DeleteUnknownIdIsNoop | AWT_PROJECT_USER_PANEL/client/src/contexts/TemplateContext.jsx:40-46 | Deleting an id no design has changes nothing. |
| TemplateContext.UpdateWithoutIdReplacesIdless | AWT_PROJECT_USER_PANEL/client/src/contexts/TemplateContext.jsx:33-39 | A payload without an id replaces every design without one, since `undefined === undefined`. |
| TemplateContext.SavesAppend | AWT_PROJECT_USER_PANEL/client/src/contexts/TemplateContext.jsx:28-32 | Dispatching one save per design appends them all, in order. |
| TemplateContext.FilteredTemplates | AWT_PROJECT_USER_PANEL/client/src/contexts/TemplateContext.jsx:189-211 | Filtering throws iff the search is truthy, is not a string, and some template passed the category filter. |
| TemplateContext.FilteredIsSubsequence | AWT_PROJECT_USER_PANEL/client/src/contexts/TemplateContext.jsx:189-211 | The filtered templates keep their order and come from the list. |
| TemplateContext.FilteredMembership | AWT_PROJECT_USER_PANEL/client/src/contexts/TemplateContext.jsx:189-211 | For a falsy or string search, a template is shown iff it matches the category ('All' matches every one) and, when the search is truthy, the search term. A falsy search such as `null` or `0` matches every template. |
| TemplateContext.InitialFiltersShowAll | AWT_PROJECT_USER_PANEL/client/src/contexts/TemplateContext.jsx:55-64 | The initial filters show every template. |
| TemplateContext.CardOf | AWT_PROJECT_USER_PANEL/client/src/contexts/TemplateContext.jsx:79-95 | A card is latest iff it is undated or under 14 days old, and trending iff featured. Its category falls back to the legacy name, then 'General'. Its thumbnail is the image URL, else the Cloudinary URL, else the image path under `/Template_images/`, else `''`. |
| TemplateContext.Cards | AWT_PROJECT_USER_PANEL/client/src/contexts/TemplateContext.jsx:79-95 | One card per template, in order; no list gives no cards. |
| TemplateContext.CategoryList | AWT_PROJECT_USER_PANEL/client/src/contexts/TemplateContext.jsx:75 | The list is 'All' followed by each category's name, and just 'All' when there are no categories. |
| TemplateContext.Load | AWT_PROJECT_USER_PANEL/client/src/contexts/TemplateContext.jsx:67-103 | Categories and cards are loaded together. A category list that throws leaves the state as it was. |
| TemplateContext.NormaliseElement | AWT_PROJECT_USER_PANEL/client/src/contexts/TemplateContext.jsx:125-141 | Type, content and source are kept. Position defaults to 0 and size to 100×50. The style fields have their defaults, and a non-number opacity becomes 1. |
| TemplateContext.ElementObject | AWT_PROJECT_USER_PANEL/client/src/contexts/TemplateContext.jsx:125-141 | The mapped element holds the given type, content, source, position, size and styling. |
| TemplateContext.ElementPosition | AWT_PROJECT_USER_PANEL/client/src/contexts/TemplateContext.jsx:129 | `x` and `y` are taken with `\|\| 0`. |
| TemplateContext.ElementDimensions | AWT_PROJECT_USER_PANEL/client/src/contexts/TemplateContext.jsx:130 | Width and height are taken with `\|\| 100` and `\|\| 50`. |
| TemplateContext.ElementStyling | AWT_PROJECT_USER_PANEL/client/src/contexts/TemplateContext.jsx:131-140 | Font size, family and colour take their `\|\|` defaults (16, Inter, black). Opacity is kept only when it is a number and is 1 otherwise. |
| TemplateContext.NormaliseDesign | AWT_PROJECT_USER_PANEL/client/src/contexts/TemplateContext.jsx:112-145 | A payload exists iff the design is an object whose elements map. It has one normalised element per element, and the design's name and canvas. |
| TemplateContext.CanvasObject | AWT_PROJECT_USER_PANEL/client/src/contexts/TemplateContext.jsx:115-124 | The canvas holds the given background image, background colour and dimensions. |
| TemplateContext.PayloadObject | AWT_PROJECT_USER_PANEL/client/src/contexts/TemplateContext.jsx:112-145 | The payload holds the given name, template id, canvas, elements and thumbnail path. |
| TemplateContext.PlainDesignNormalises | AWT_PROJECT_USER_PANEL/client/src/contexts/TemplateContext.jsx:112-145 | A design object with an array of element objects and no `canvas` normalises. Its thumbnail is its background image or `""`, and its template id is its own as a string. |
| TemplateContext.ThumbnailIsBackground | AWT_PROJECT_USER_PANEL/client/src/contexts/TemplateContext.jsx:112-145 | The payload's thumbnail is its canvas background image. |
| TemplateContext.CustomizerDesignNormalises | AWT_PROJECT_USER_PANEL/client/src/pages/CustomizePage.jsx:120-129 | A design from the customiser always normalises, keeping its element count and background. |
| TemplateContext.SaveDesignEffect | AWT_PROJECT_USER_PANEL/client/src/contexts/TemplateContext.jsx:147-158 | The store changes iff the payload can be built and the response carries a design. Then exactly the saved entry of the server's design is appended, with the server's, then the payload's, then `''` as thumbnail, and nothing else changes. |
| TemplateContext.StoreSaved | AWT_PROJECT_USER_PANEL/client/src/contexts/TemplateContext.jsx:152-158 | Once the payload exists, the store changes iff the response has a design. Exactly the saved entry of that design, with its thumbnail chain, is then appended under its `_id` as `id`. |
| TemplateContext.SavedThumbnail | AWT_PROJECT_USER_PANEL/client/src/contexts/TemplateContext.jsx:156 | The thumbnail is the server's `thumbnailPath` if truthy, else the payload's, else `''`. |
| TemplateContext.SavedEntry | AWT_PROJECT_USER_PANEL/client/src/contexts/TemplateContext.jsx:152-157 | The stored entry takes `id` from the server's `_id`, and keeps the given thumbnail, the server's `createdAt` and every other field of the server's design. |
| TemplateContext.DeleteDesignEffect | AWT_PROJECT_USER_PANEL/client/src/contexts/TemplateContext.jsx:165-169 | The store changes only after the request succeeds. Then the saved designs are exactly the old ones, in order, whose `id` is not the given one. |
| TemplateContext.ListedDesign | AWT_PROJECT_USER_PANEL/client/src/contexts/TemplateContext.jsx:178-182 | A listed design takes `_id` as its id and the thumbnail fallback chain; its other properties are kept. |
| TemplateContext.LoadSaved | AWT_PROJECT_USER_PANEL/client/src/contexts/TemplateContext.jsx:172-187 | Without a token or a list nothing changes. Otherwise the listed designs are appended in order. |
| CustomizePage.ChangeElement | AWT_PROJECT_USER_PANEL/client/src/pages/CustomizePage.jsx:64-71 | Every element with the id gets the property; the others stay. |
| CustomizePage.ChangeKeepsIds | AWT_PROJECT_USER_PANEL/client/src/pages/CustomizePage.jsx:64-71 | Changing a property other than `id` keeps every id. |
| CustomizePage.ChangeUnknownIdIsNoop | AWT_PROJECT_USER_PANEL/client/src/pages/CustomizePage.jsx:64-71 | Changing an absent id changes nothing. |
| CustomizePage.ChangeLastWins | AWT_PROJECT_USER_PANEL/client/src/pages/CustomizePage.jsx:64-71 | Of two changes to the same property, the last wins. |
| CustomizePage.ChangesCommute | AWT_PROJECT_USER_PANEL/client/src/pages/CustomizePage.jsx:64-71 | Changes to different properties commute. |
| CustomizePage.NonNegative | AWT_PROJECT_USER_PANEL/client/src/pages/CustomizePage.jsx:481-482 | `Math.max(0, n)` is non-negative, and equals n when n ≥ 0. |
| CustomizePage.DropIsNonNegative | AWT_PROJECT_USER_PANEL/client/src/pages/CustomizePage.jsx:477-483 | A dropped element gets non-negative numeric x and y, and nothing else changes. |
| CustomizePage.ContactElementsStack | AWT_PROJECT_USER_PANEL/client/src/pages/CustomizePage.jsx:236-305 | Phone, email and website are placed one below the other, and share x, size and colour. |
| CustomizePage.ContactElement | AWT_PROJECT_USER_PANEL/client/src/pages/CustomizePage.jsx:236-305 | The element each contact button appends: placeholder text at x 50, 14px, grey. Its layout is stated by `ContactElementsStack`, and `DesignEditor.AddContact` appends it. |
| CustomizePage.TextElement | AWT_PROJECT_USER_PANEL/client/src/pages/CustomizePage.jsx:73-84 | The `New Text` element at (100, 200), 16px Inter, black, normal weight. `DesignEditor.AddTextElement` appends it. |
| CustomizePage.LogoElement | AWT_PROJECT_USER_PANEL/client/src/pages/CustomizePage.jsx:97-105 | The 100×100 image element at (300, 50) holding the uploaded data URL. `DesignEditor.HandleLogoUpload` appends it. |
| CustomizePage.SavePayload | AWT_PROJECT_USER_PANEL/client/src/pages/CustomizePage.jsx:120-129 | The payload is the design, with `<template name> - Custom`, the template's id and its thumbnail. |
| CustomizePage.DesignObject | AWT_PROJECT_USER_PANEL/client/src/pages/CustomizePage.jsx:31-62 | The design state holds the background image and colour and the element array, and no other key. |
| CustomizePage.ElementObjects | AWT_PROJECT_USER_PANEL/client/src/pages/CustomizePage.jsx:31-62 | The element array has one object per element, in order. |
| CustomizePage.DesignEditor.constructor | AWT_PROJECT_USER_PANEL/client/src/pages/CustomizePage.jsx:25-62 | The editor opens the passed template or the default one, with its thumbnail as background, a white colour and the two starting elements. |
| CustomizePage.DesignEditor.HandleElementChange | AWT_PROJECT_USER_PANEL/client/src/pages/CustomizePage.jsx:64-71 | Only the elements change, as ChangeElement says. |
| CustomizePage.DesignEditor.AddTextElement | AWT_PROJECT_USER_PANEL/client/src/pages/CustomizePage.jsx:73-89 | One text element is appended; nothing else changes. |
| CustomizePage.DesignEditor.HandleLogoUpload | AWT_PROJECT_USER_PANEL/client/src/pages/CustomizePage.jsx:91-113 | With a file, an image element is appended and the logo set; without one, nothing changes. |
| CustomizePage.DesignEditor.AddContact | AWT_PROJECT_USER_PANEL/client/src/pages/CustomizePage.jsx:236-305 | The contact's element is appended; nothing else changes. |
| CustomizePage.DesignEditor.SetBackgroundColor | AWT_PROJECT_USER_PANEL/client/src/pages/CustomizePage.jsx:320 | Only the background colour changes. |
| CustomizePage.DesignEditor.ApplyPreset | AWT_PROJECT_USER_PANEL/client/src/pages/CustomizePage.jsx:348-357 | The background colour becomes the preset; nothing else changes. |
| CustomizePage.DesignEditor.UploadBackgroundImage | AWT_PROJECT_USER_PANEL/client/src/pages/CustomizePage.jsx:332-341 | With a file the background image is replaced; otherwise nothing changes. |
| CustomizePage.DesignEditor.DragEnd | AWT_PROJECT_USER_PANEL/client/src/pages/CustomizePage.jsx:477-483 | The dragged element moves to the clamped drop point. |
| CustomizePage.DesignEditor.SaveCurrentDesign | AWT_PROJECT_USER_PANEL/client/src/pages/CustomizePage.jsx:120-129 | The payload carries the current background and the template's id. |
| CustomizePage.DefaultTemplateNames | AWT_PROJECT_USER_PANEL/client/src/pages/CustomizePage.jsx:25-29 | Without a passed template, the design is named `Custom Template - Custom` and keeps the route's id. |
| CustomizePage.DefaultTemplate | AWT_PROJECT_USER_PANEL/client/src/pages/CustomizePage.jsx:25-29 | Without a template in the location state, the template is truthy, has the route's id and is named `Custom Template`. |
| AuthContext.Reduce | AWT_PROJECT_USER_PANEL/client/src/contexts/AuthContext.jsx:6-35 | Login authenticates the user; logout clears everything. Loading changes only the flag. An update merges changes into the user and keeps the session. |
| AuthContext.LogoutForgetsEverything | AWT_PROJECT_USER_PANEL/client/src/contexts/AuthContext.jsx:15-21 | Logging out gives the same state from any state. |
| AuthContext.UpdateKeepsSession | AWT_PROJECT_USER_PANEL/client/src/contexts/AuthContext.jsx:27-31 | An update never changes whether the user is authenticated. |
| AuthContext.Mount | AWT_PROJECT_USER_PANEL/client/src/contexts/AuthContext.jsx:44-53 | The stored user is restored iff both a user and a token are stored; otherwise loading just ends. |
| AuthContext.LogoutStorage | AWT_PROJECT_USER_PANEL/client/src/contexts/AuthContext.jsx:64-65 | Logout removes exactly `user` and `token` from storage. |
| AuthContext.ReloadAfterLogin | AWT_PROJECT_USER_PANEL/client/src/contexts/AuthContext.jsx:44-61 | Reloading after a login restores the same state the login produced. |
| AuthContext.MissingTokenStillRestores | AWT_PROJECT_USER_PANEL/client/src/contexts/AuthContext.jsx:58-59 | A login without a token still stores the truthy string "undefined", so a reload restores the session. |
| AuthContext.ReloadAfterLogout | AWT_PROJECT_USER_PANEL/client/src/contexts/AuthContext.jsx:44-67 | Reloading after a logout gives the logged-out state. |
| AuthContext.UpdatedUser | AWT_PROJECT_USER_PANEL/client/src/contexts/AuthContext.jsx:72-79 | The stored user takes `_id` (or `id`) as its id and `{}` for missing social links. |
| AuthContext.AuthStore.constructor | AWT_PROJECT_USER_PANEL/client/src/contexts/AuthContext.jsx:38-42 | The store starts from the initial state over the given storage. |
| AuthContext.AuthStore.Restore | AWT_PROJECT_USER_PANEL/client/src/contexts/AuthContext.jsx:44-53 | The state becomes the mount effect's; storage is untouched. |
| AuthContext.AuthStore.LoginWith | AWT_PROJECT_USER_PANEL/client/src/contexts/AuthContext.jsx:55-61 | Storage gets the token and user, and the state is logged in. |
| AuthContext.AuthStore.LogoutNow | AWT_PROJECT_USER_PANEL/client/src/contexts/AuthContext.jsx:63-67 | Storage loses the token and user, and the state is logged out. |
| AuthContext.AuthStore.UpdateUserWith | AWT_PROJECT_USER_PANEL/client/src/contexts/AuthContext.jsx:69-82 | An update throws iff the response has no user, and then nothing changes. Otherwise the user is stored and merged. |
| ErrorMiddleware.Capitalize | AWT_PROJECT_USER_PANEL/server/src/middlewares/error.middleware.js:19 | Only the first character is upper-cased; the length is kept. |
| ErrorMiddleware.ErrorHandler | AWT_PROJECT_USER_PANEL/server/src/middlewares/error.middleware.js:1-67 | The handler throws iff a duplicate-key error has no key fields. A stack is sent only in development, and sub-errors only for validation errors. |
| ErrorMiddleware.RecognisedAreClientErrors | AWT_PROJECT_USER_PANEL/server/src/middlewares/error.middleware.js:4-59 | A recognised error answers 401 for the two token errors and 400 for the rest, never with a stack. |
| ErrorMiddleware.DefaultBranch | AWT_PROJECT_USER_PANEL/server/src/middlewares/error.middleware.js:61-66 | Any other error keeps its own status and message, with 500 and 'Internal Server Error' as fallbacks. |
| ErrorMiddleware.ValidationWins | AWT_PROJECT_USER_PANEL/server/src/middlewares/error.middleware.js:5-12 | A validation error is answered 400 with its messages, whatever its code. |
| ErrorMiddleware.DuplicateKeyMessage | AWT_PROJECT_USER_PANEL/server/src/middlewares/error.middleware.js:15-21 | A duplicate key is reported as `<First key, capitalised> already exists`. |
| Mongoose.ValidationErrorReply | AWT_PROJECT_USER_PANEL/server/src/middlewares/error.middleware.js:5-12 | A validation error is answered 400 with its own messages. |
| Mongoose.DuplicateKeyReply | AWT_PROJECT_USER_PANEL/server/src/middlewares/error.middleware.js:15-21 | A duplicate key is answered 400 with the first key capitalised and `already exists`. |
| Mongoose.ValidationError | AWT_PROJECT_USER_PANEL/server/src/middlewares/error.middleware.js:5-6 | A validation error carries the failed validators' messages. |
| Mongoose.DuplicateKey | AWT_PROJECT_USER_PANEL/server/src/middlewares/error.middleware.js:15-16 | A duplicate-key error has code 11000 and the index's keys. |
| Mongoose.SlugClashReply | AWT_PROJECT_USER_PANEL/server/src/models/Template.js:12 | A slug collision is answered `Slug already exists`. |
| AuthMiddleware.Request.constructor | AWT_PROJECT_USER_PANEL/server/src/middlewares/auth.middleware.js:9 | A request starts with its header and cookie and no user. |
| AuthMiddleware.SelectToken | AWT_PROJECT_USER_PANEL/server/src/middlewares/auth.middleware.js:8-17 | A non-empty Bearer header gives the token after `Bearer `. Otherwise a non-empty cookie is used. A token is never empty. |
| AuthMiddleware.AuthDecision | AWT_PROJECT_USER_PANEL/server/src/middlewares/auth.middleware.js:4-55 | The request proceeds iff the token verifies to a found, active user. Without a token the reply is 401 'No token provided'. Every other failure is a 401 or 500 reply. |
| AuthMiddleware.Auth | AWT_PROJECT_USER_PANEL/server/src/middlewares/auth.middleware.js:4-55 | The decision is `AuthDecision`'s. Without a token the reply is 401 'No token provided'. The request proceeds iff the token verifies to an active user, who is then attached. Otherwise the user is untouched. |
| AuthMiddleware.AdminAuth | AWT_PROJECT_USER_PANEL/server/src/middlewares/auth.middleware.js:57-71 | The request proceeds iff an active admin is authenticated; a non-admin gets 403. An authenticated user stays attached. When nobody is authenticated, the reply is `auth`'s own (`AuthDecision`) and the user is untouched. |
| AuthMiddleware.OptionalAuth | AWT_PROJECT_USER_PANEL/server/src/middlewares/auth.middleware.js:73-101 | The request always proceeds, with the user attached only when one is authenticated. |
| AuthMiddleware.NoCredentialsNoUser | AWT_PROJECT_USER_PANEL/server/src/middlewares/auth.middleware.js:8-19 | With neither a header nor a cookie, nobody is authenticated. |
| AuthMiddleware.EmptyBearerFallsBack | AWT_PROJECT_USER_PANEL/server/src/middlewares/auth.middleware.js:10-17 | A bare `Bearer ` header falls back to the cookie. |
| UploadMiddleware.Extname | AWT_PROJECT_USER_PANEL/server/src/middleware/upload.middleware.js:30 | `path.extname` is empty, or a dot followed by no dot or slash. |
| UploadMiddleware.LastIndexOf | AWT_PROJECT_USER_PANEL/server/src/middleware/upload.middleware.js:30 | The index found holds the character, and no later index does. `None` means the character does not occur. |
| UploadMiddleware.StripTrailingSlashes | AWT_PROJECT_USER_PANEL/server/src/middleware/upload.middleware.js:30 | The result is a prefix of the path, with no trailing `/`. |
| UploadMiddleware.LastSegment | AWT_PROJECT_USER_PANEL/server/src/middleware/upload.middleware.js:30 | The base name holds no `/`. |
| UploadMiddleware.ImageFilter | AWT_PROJECT_USER_PANEL/server/src/middleware/upload.middleware.js:46-56 | A file is accepted iff both its lower-cased extension and its mimetype mention jpeg, jpg, png or webp. Otherwise it is rejected with the fixed message. |
| UploadMiddleware.SubstringIsEnough | AWT_PROJECT_USER_PANEL/server/src/middleware/upload.middleware.js:47-49 | The test is unanchored: an extension and mimetype containing a type name pass. |
| UploadMiddleware.MimetypeIsNotLowercased | AWT_PROJECT_USER_PANEL/server/src/middleware/upload.middleware.js:49 | An upper-case mimetype such as `IMAGE/PNG` is rejected. |
| UploadMiddleware.NoLowerNoMention | AWT_PROJECT_USER_PANEL/server/src/middleware/upload.middleware.js:47-49 | A mimetype with no lower-case letter never matches the allowed-type pattern. |
| UploadMiddleware.MaxFiles | AWT_PROJECT_USER_PANEL/server/src/middleware/upload.middleware.js:59-86 | Template and frame uploads take one file; the generic upload takes five. |
| UploadMiddleware.StoredName | AWT_PROJECT_USER_PANEL/server/src/middleware/upload.middleware.js:28-42 | Template and frame files are renamed with their prefix and keep their extension; the generic upload gives no name. |
| UploadMiddleware.LimitError | AWT_PROJECT_USER_PANEL/server/src/middleware/upload.middleware.js:59-86 | A limit error occurs iff there are too many files or a file over 10 MB, and it is one of multer's two codes. |
| UploadMiddleware.LimitErrorFrom | AWT_PROJECT_USER_PANEL/server/src/middleware/upload.middleware.js:59-86 | From file k on, there is no limit error iff the count is within the limit (or no file remains) and every remaining file is within 10 MB. Only the two `LIMIT_*` codes are produced. |
| UploadMiddleware.LimitErrorsAre400 | AWT_PROJECT_USER_PANEL/server/src/middlewares/error.middleware.js:47-59 | A limit error is answered 400 with its message. |
| Helpers.CollapseRunsChars | AWT_PROJECT_USER_PANEL/server/src/utils/helpers.js:38 | Collapsing runs emits only dashes and input characters outside the class. |
| Helpers.CollapseDashesNoDouble | AWT_PROJECT_USER_PANEL/server/src/utils/helpers.js:40 | After collapsing dash runs, no two dashes are adjacent. |
| Helpers.SlugifyCharset | AWT_PROJECT_USER_PANEL/server/src/utils/helpers.js:34-43 | A slug contains only lower-case letters, digits, `_` and `-`. |
| Helpers.Slugify | AWT_PROJECT_USER_PANEL/server/src/utils/helpers.js:34-43 | `slugify`: lower-cased, each white-space run to one `-`, non-word characters dropped, dash runs collapsed, edge dashes trimmed. Its meaning is stated by `SlugifyIsSlug`, `SlugifyIdempotent`, `SlugifyFixesSlugs` and `SlugifyJoinsWords`. |
| Helpers.SlugifyDashes | AWT_PROJECT_USER_PANEL/server/src/utils/helpers.js:34-43 | A slug has no `--` and no leading or trailing `-`. |
| Helpers.SlugifyFixesSlugs | AWT_PROJECT_USER_PANEL/server/src/utils/helpers.js:34-43 | `slugify` leaves a slug unchanged. |
| Helpers.SlugifyIdempotent | AWT_PROJECT_USER_PANEL/server/src/utils/helpers.js:34-43 | `slugify(slugify(s)) == slugify(s)`. |
| Helpers.SlugifyJoinsWords | AWT_PROJECT_USER_PANEL/server/src/utils/helpers.js:34-43 | Two words separated by white space come out joined by one `-`. |
| Helpers.SlugifyIsSlug | AWT_PROJECT_USER_PANEL/server/src/utils/helpers.js:34-43 | The result of slugify is always a slug. |
| Helpers.DashJoinsWords | AWT_PROJECT_USER_PANEL/server/src/utils/helpers.js:38 | A run of white space between two words becomes one dash. |
| Helpers.JoinedWordsAreSlug | AWT_PROJECT_USER_PANEL/server/src/utils/helpers.js:34-43 | Two plain words joined by a dash form a slug. |
| Helpers.CollapseRunsAppend | AWT_PROJECT_USER_PANEL/server/src/utils/helpers.js:38-40 | Collapsing runs distributes over concatenation, given whether the first part ended inside a run. |
| Helpers.IsValidEmail | AWT_PROJECT_USER_PANEL/server/src/utils/helpers.js:48-51 | The scanner accepts exactly the strings of `/^[^\s@]+@[^\s@]+\.[^\s@]+$/`. |
| Helpers.Paginate | AWT_PROJECT_USER_PANEL/server/src/utils/helpers.js:99-102 | The limit defaults to 10, and page 1 (the default) skips nothing. |
| Helpers.PagesAbut | AWT_PROJECT_USER_PANEL/server/src/utils/helpers.js:99-102 | Page p+1 starts where page p ends. |
| Patterns.EmailScanIsRegex | AWT_PROJECT_USER_PANEL/client/src/pages/SignupPage.jsx:111 | The executable email scan agrees with the regular expression on every string. |
| Patterns.IndexOf | AWT_PROJECT_USER_PANEL/client/src/pages/SignupPage.jsx:111 | The index found is the first occurrence of the character; `None` means it does not occur. |
| Patterns.EmailHasNoSpace | AWT_PROJECT_USER_PANEL/client/src/pages/ProfilePage.jsx:84 | An accepted email contains no white space. |
| SchemaSlug.DashNonAlnum | AWT_PROJECT_USER_PANEL/server/src/models/Template.js:94 | Replacing non-alphanumerics keeps the length. |
| SchemaSlug.Slug | AWT_PROJECT_USER_PANEL/server/src/models/Template.js:94 | The slug the schemas' hooks set. Its meaning is stated by `SlugCharset`, `SlugNoDoubleDash`, `SlugKeepsLeadingDash`, `SlugKeepsTrailingDash` and `SlugOfAlnumName`. |
| SchemaSlug.TrimChangesNothing | AWT_PROJECT_USER_PANEL/server/src/models/Template.js:94 | The final `trim('-')` removes nothing. |
| SchemaSlug.SlugCharset | AWT_PROJECT_USER_PANEL/server/src/models/Template.js:94 | A schema slug contains only `[a-z0-9-]`. |
| SchemaSlug.SlugNoDoubleDash | AWT_PROJECT_USER_PANEL/server/src/models/Template.js:94 | A schema slug has no `--`. |
| SchemaSlug.SlugKeepsLeadingDash | AWT_PROJECT_USER_PANEL/server/src/models/Template.js:94 | A name starting with a non-alphanumeric gives a slug starting with `-`. |
| SchemaSlug.SlugKeepsTrailingDash | AWT_PROJECT_USER_PANEL/server/src/models/Template.js:94 | A name ending with a non-alphanumeric gives a slug ending with `-`. |
| SchemaSlug.LastDashSurvives | AWT_PROJECT_USER_PANEL/server/src/models/Template.js:94 | Collapsing dash runs keeps a final dash. |
| SchemaSlug.SlugOfAlnumName | AWT_PROJECT_USER_PANEL/server/src/models/Template.js:94 | An alphanumeric name gives its lower-case form. |
| CategoryModel.NewCategory | AWT_PROJECT_USER_PANEL/server/src/models/Category.js:4-30 | The name is trimmed; `isActive` defaults to true and `sortOrder` to 0. |
| CategoryModel.ValidationMessages | AWT_PROJECT_USER_PANEL/server/src/models/Category.js:4-22 | A category passes iff its name is 1 to 50 characters, it has a master, and any description is at most 200 characters. |
| CategoryModel.BlankNameRequired | AWT_PROJECT_USER_PANEL/server/src/models/Category.js:4-9 | A blank name is reported as missing, because it is trimmed first. |
| CategoryModel.AfterHook | AWT_PROJECT_USER_PANEL/server/src/models/Category.js:41-46 | The hook sets the slug from the name when the name changed; otherwise nothing changes. |
| CategoryModel.CategoryDoc.PreSave | AWT_PROJECT_USER_PANEL/server/src/models/Category.js:41-46 | The document becomes the hook's result. |
| CategoryModel.CategoryCollection.Save | AWT_PROJECT_USER_PANEL/server/src/models/Category.js:36 | An invalid category is rejected with its messages, and a taken (name, master) with a duplicate key. Otherwise the hooked document is appended, and the index stays unique. |
| CategoryModel.DuplicateAnsweredByName | AWT_PROJECT_USER_PANEL/server/src/models/Category.js:36 | A duplicate category is answered `Name already exists`. |
| MasterCategoryModel.NewMaster | AWT_PROJECT_USER_PANEL/server/src/models/MasterCategory.js:4-19 | The name is trimmed; `isActive` defaults to true and `sortOrder` to 0. |
| MasterCategoryModel.ValidationMessages | AWT_PROJECT_USER_PANEL/server/src/models/MasterCategory.js:4-19 | A master passes iff its name is 1 to 50 characters and any description is at most 200 characters. |
| MasterCategoryModel.AfterHook | AWT_PROJECT_USER_PANEL/server/src/models/MasterCategory.js:38-43 | The hook sets the slug from the name when the name changed. |
| MasterCategoryModel.MasterDoc.PreSave | AWT_PROJECT_USER_PANEL/server/src/models/MasterCategory.js:38-43 | The document becomes the hook's result. |
| MasterCategoryModel.MasterCollection.Save | AWT_PROJECT_USER_PANEL/server/src/models/MasterCategory.js:7-13 | Invalid documents are rejected, and so are taken names and slugs. Otherwise the hooked document is appended, keeping both indexes unique. |
| TemplateModel.Tag | AWT_PROJECT_USER_PANEL/server/src/models/Template.js:4-47 | A tag is trimmed and lower-cased, so it never grows. |
| TemplateModel.TagSettersCommute | AWT_PROJECT_USER_PANEL/server/src/models/Template.js:4-47 | Trimming then lower-casing gives the same tag as lower-casing then trimming. |
| TemplateModel.NewTemplate | AWT_PROJECT_USER_PANEL/server/src/models/Template.js:4-71 | The name is trimmed and each tag normalised; the size defaults to 800×600. |
| TemplateModel.ValidationMessages | AWT_PROJECT_USER_PANEL/server/src/models/Template.js:4-71 | A template passes iff it has a name of at most 100 characters, a category and an image. Any description must be at most 500 characters, the format one of the allowed ones, and the rating between 0 and 5. |
| TemplateModel.NameMessages | AWT_PROJECT_USER_PANEL/server/src/models/Template.js:4-9 | The name passes iff it is non-empty and at most 100 characters. |
| TemplateModel.FormatMessages | AWT_PROJECT_USER_PANEL/server/src/models/Template.js:43-47 | The format passes iff it is one of jpg, jpeg, png and webp. |
| TemplateModel.RatingMessages | AWT_PROJECT_USER_PANEL/server/src/models/Template.js:68-71 | The rating passes iff it is between 0 and 5. |
| TemplateModel.AfterHook | AWT_PROJECT_USER_PANEL/server/src/models/Template.js:92-97 | The hook sets the slug from the name when the name changed. |
| TemplateModel.TemplateDoc.PreSave | AWT_PROJECT_USER_PANEL/server/src/models/Template.js:92-97 | The document becomes the hook's result. |
| TemplateModel.TemplateCollection.Save | AWT_PROJECT_USER_PANEL/server/src/models/Template.js:12 | An invalid template is rejected, and so is a taken slug. Otherwise the hooked document is appended and slugs stay unique. |
| TemplateModel.ImageUrl | AWT_PROJECT_USER_PANEL/server/src/models/Template.js:100-105 | The image URL exists iff there is an image path, and is `/Template_images/<path>`. |
| TemplateModel.ThumbnailUrl | AWT_PROJECT_USER_PANEL/server/src/models/Template.js:108-113 | The thumbnail URL is built from the thumbnail path, falling back to the image URL. |
| TemplateModel.SavedTemplateHasThumbnail | AWT_PROJECT_USER_PANEL/server/src/models/Template.js:100-113 | Every valid template has a thumbnail under `/Template_images/`. |
| TemplateModel.HookKeepsUrls | AWT_PROJECT_USER_PANEL/server/src/models/Template.js:92-113 | The slug hook does not change either URL. |
| FrameElementModel.NewElement | AWT_PROJECT_USER_PANEL/server/src/models/FrameElement.js:9-29 | The type is lower-cased. Unset styling takes the defaults 16, `#000000`, Arial, normal and left. |
| FrameElementModel.DefaultStylingValid | AWT_PROJECT_USER_PANEL/server/src/models/FrameElement.js:19-25 | An element given only a known type and a position is valid. |
| FrameElementModel.ValidationFailures | AWT_PROJECT_USER_PANEL/server/src/models/FrameElement.js:9-29 | An element passes iff it is valid. The font size fails iff it is outside 8 to 72, the colour iff it is neither empty nor a hex colour, and the type iff it is outside the enum. |
| FrameElementModel.Valid | AWT_PROJECT_USER_PANEL/server/src/models/FrameElement.js:9-29 | The schema constraints on the modelled paths. `ValidationFailures` is empty iff it holds, and `DefaultStylingValid` shows the defaults meet it. |
| FrameElementModel.EmptyColorAccepted | AWT_PROJECT_USER_PANEL/server/src/models/FrameElement.js:21 | An empty colour is never a failing path, and an element valid with some colour stays valid with `""`. |
| FrameElementModel.TypeAndPositionFailures | AWT_PROJECT_USER_PANEL/server/src/models/FrameElement.js:9-18 | The type and position paths pass iff the type is in the enum and both coordinates are numbers. The type fails iff it is outside the enum. |
| FrameElementModel.StylingFailures | AWT_PROJECT_USER_PANEL/server/src/models/FrameElement.js:19-25 | The styling passes iff the font size is 8 to 72, the colour empty or a hex colour (`match` does not test an empty string), and weight and alignment are in their enums. The font size fails iff it is out of range, and the colour iff it is neither. |
| FrameElementModel.DimensionFailures | AWT_PROJECT_USER_PANEL/server/src/models/FrameElement.js:26-29 | The dimensions pass iff each is unset or at least 10. |
| FrameElementModel.AfterHook | AWT_PROJECT_USER_PANEL/server/src/models/FrameElement.js:43-55 | A logo's styling is replaced by the fixed logo styling; other elements are unchanged. |
| FrameElementModel.FrameElementDoc.PreSave | AWT_PROJECT_USER_PANEL/server/src/models/FrameElement.js:43-55 | The document becomes the hook's result. |
| FrameElementModel.FrameElementDoc.Save | AWT_PROJECT_USER_PANEL/server/src/models/FrameElement.js:43-55 | Validation runs first, and only a valid document is hooked. |
| FrameElementModel.HookIdempotent | AWT_PROJECT_USER_PANEL/server/src/models/FrameElement.js:43-55 | Running the hook twice is running it once. |
| FrameElementModel.LogoStylingOutOfRange | AWT_PROJECT_USER_PANEL/server/src/models/FrameElement.js:47 | The hook's logo font size 0 is outside the schema's range. |
| FrameElementModel.LogoWithZeroFontSizeRejected | AWT_PROJECT_USER_PANEL/server/src/models/FrameElement.js:20 | A logo built with font size 0 fails validation. |
| MultipartFields.Wrap | AWT_PROJECT_USER_PANEL/server/src/controllers/frame.controller.js:181-185 | `Array.isArray(v) ? v : [v]`: never empty, and an array is kept in order. |
| MultipartFields.At | AWT_PROJECT_USER_PANEL/server/src/controllers/frame.controller.js:188 | Indexing past the end gives undefined. |
| FrameController.FramesWindow | AWT_PROJECT_USER_PANEL/server/src/controllers/frame.controller.js:18-28 | The limit defaults to 12, and the skip is `(page - 1) * limit`. |
| FrameController.TotalPages | AWT_PROJECT_USER_PANEL/server/src/controllers/frame.controller.js:48 | `Math.ceil(total / limit)` is the fewest pages covering the total; a zero limit gives no number. |
| FrameController.CeilDivBounds | AWT_PROJECT_USER_PANEL/server/src/controllers/frame.controller.js:48 | `Math.ceil(total / limit)` for a positive limit is the least page count covering `total`. |
| FrameController.ImageUrl | AWT_PROJECT_USER_PANEL/server/src/controllers/frame.controller.js:35-37 | A Cloudinary frame uses its Cloudinary URL; others use `<protocol>://<host>/Frame_images/<path>`. |
| FrameController.Hooked | AWT_PROJECT_USER_PANEL/server/src/models/FrameElement.js:43-55 | Each document is hooked, in order. |
| FrameController.SaveRows | AWT_PROJECT_USER_PANEL/server/src/controllers/frame.controller.js:187-205 | The loop saves every kept row iff all are valid. Otherwise it saves those before the first invalid one. |
| FrameController.KeptDocs | AWT_PROJECT_USER_PANEL/server/src/controllers/frame.controller.js:187-205 | There is one document per row the loop keeps. |
| FrameController.RowDoc | AWT_PROJECT_USER_PANEL/server/src/controllers/frame.controller.js:189-200 | The document built for a kept row: the parsed coordinates, and a size of 0 and black for a logo. Its meaning is stated by `DefaultFontSize`, `RowColorDefault` and `LogoRowIsRejected`. |
| FrameController.Documents | AWT_PROJECT_USER_PANEL/server/src/controllers/frame.controller.js:180-202 | The documents the loop builds from the wrapped fields. `KeptDocsFromKeptRows`, `KeptRowsYieldDocs` and `AllRowsKept` state which rows yield one. |
| FrameController.KeptDocsStep | AWT_PROJECT_USER_PANEL/server/src/controllers/frame.controller.js:187-205 | A kept row adds its document at the end. |
| FrameController.KeepStep | AWT_PROJECT_USER_PANEL/server/src/controllers/frame.controller.js:187-205 | Saving a valid document keeps every saved document valid and hooked, in order. |
| FrameController.FirstFailure | AWT_PROJECT_USER_PANEL/server/src/controllers/frame.controller.js:187-205 | An invalid document stops the loop: it is the first invalid one, and the documents before it are unchanged. |
| FrameController.KeptDocsLength | AWT_PROJECT_USER_PANEL/server/src/controllers/frame.controller.js:187-205 | No more documents than rows. |
| FrameController.CreateFrameWithElements | AWT_PROJECT_USER_PANEL/server/src/controllers/frame.controller.js:133-226 | No file gives 400. Success gives 201 with the hooked documents; the first invalid row gives 500 with the earlier rows saved. |
| FrameController.KeptDocsPrefix | AWT_PROJECT_USER_PANEL/server/src/controllers/frame.controller.js:187-205 | The documents of the first i rows begin the documents of the first n rows. |
| FrameController.KeptDocsFromKeptRows | AWT_PROJECT_USER_PANEL/server/src/controllers/frame.controller.js:188 | Every document comes from a kept row. |
| FrameController.KeptRowsYieldDocs | AWT_PROJECT_USER_PANEL/server/src/controllers/frame.controller.js:188 | Every kept row gives a document. |
| FrameController.AllRowsKept | AWT_PROJECT_USER_PANEL/server/src/controllers/frame.controller.js:188 | When every row is kept there is one document per row. |
| FrameController.AllRowsCounted | AWT_PROJECT_USER_PANEL/server/src/controllers/frame.controller.js:188 | When every row is kept, there are as many documents as rows. |
| FrameController.DefaultFontSize | AWT_PROJECT_USER_PANEL/server/src/controllers/frame.controller.js:197 | A non-logo row without a font size gets 16. |
| FrameController.RowColorDefault | AWT_PROJECT_USER_PANEL/server/src/controllers/frame.controller.js:197-198 | A logo or a row without a colour gets `#000000`, and a logo gets font size 0. |
| FrameController.LogoRowIsRejected | AWT_PROJECT_USER_PANEL/server/src/controllers/frame.controller.js:197 | A kept logo row always produces an invalid document, because size 0 is out of range. |
| AdminFrameRoute.FileFilter | AWT_PROJECT_ADMIN_PANEL/routes/frame.js:28-35 | A file is accepted iff its mimetype starts with `image/`; otherwise it is rejected with the fixed message. |
| AdminFrameRoute.AnyImageSubtypeAccepted | AWT_PROJECT_ADMIN_PANEL/routes/frame.js:30 | Any `image/` subtype is accepted. |
| AdminFrameRoute.Records | AWT_PROJECT_ADMIN_PANEL/routes/frame.js:112-126 | One record per element entry, in order. |
| AdminFrameRoute.RowRecord | AWT_PROJECT_ADMIN_PANEL/routes/frame.js:113-126 | The record of one entry: the parsed coordinates, and a size of 0 and black for a logo or a missing size. `DefaultFontSizeIsZero` states the default. |
| AdminFrameRoute.AdminValid | AWT_PROJECT_ADMIN_PANEL/models/FrameElement.js:3-30 | The admin schema's checks: a type in its enum, and coordinates and a font size that cast to numbers. `MissingCoordinateRefused` and `WebsiteRefused` state what it refuses. |
| AdminFrameRoute.UploadWithElements | AWT_PROJECT_ADMIN_PANEL/routes/frame.js:73-145 | No file gives 400, and a failed frame save 500. Otherwise 200 iff every record is valid; the first invalid one gives 500 with the records before it saved. |
| AdminFrameRoute.SaveRecords | AWT_PROJECT_ADMIN_PANEL/routes/frame.js:112-130 | All records are saved iff all are valid. Otherwise the records before the first invalid one are saved. |
| AdminFrameRoute.ElementsNeverEmpty | AWT_PROJECT_ADMIN_PANEL/routes/frame.js:98-100 | A wrapped field is never empty, so the 'No elements data provided' branch is dead. |
| AdminFrameRoute.MissingCoordinateRefused | AWT_PROJECT_ADMIN_PANEL/models/FrameElement.js:14-21 | A record without a coordinate is refused. |
| AdminFrameRoute.DefaultFontSizeIsZero | AWT_PROJECT_ADMIN_PANEL/routes/frame.js:116 | A missing font size gives 0 here, where the user server uses 16. |
| AdminFrameRoute.WebsiteRefused | AWT_PROJECT_ADMIN_PANEL/models/FrameElement.js:9-13 | The admin schema has no `website` type, so such a record is refused. |

## Left out

- Floating point: JavaScript numbers are modelled as integers, so fractional positions, sizes and dates are not represented.
- Strings are sequences of code points, whereas JavaScript counts UTF-16 units. Case mapping covers ASCII only. `localeCompare` is code-point lexicographic order.
- Network, timers and disks are parameters or left out: `fetch`, `AbortController` timeouts (folded into the fetch outcome as a network failure), `setTimeout` waits, file moves, Cloudinary, and the frame's own `save`. `JSON.stringify` is abstract: the body is carried as the value it encodes.
- The 401 redirect to `/login` (`window.location`) is not modelled; only its effect on storage is.
- Query-string parameters are taken in the order of the given sequence; JavaScript's object key order is not modelled.
- `apiRequest` with a non-string method, where `toLowerCase` would throw, is not modelled: the method is a string.
- Reading the saved-design list assumes every design's `name` is a string, and `createdAt` is a millisecond count; invalid dates are not modelled.
- TemplateContext.LoadSaved: a list with a `null` or `undefined` entry makes `d._id` throw; the error is caught and the state is left as it was. The contract does not state this case.
- `TextOr`: a non-string truthy user property (a number or object) is taken as the empty string.
- The profile page's password change is a local mock in the source (no request); the model mirrors this.
- The selected element, the active tab and other purely presentational state of the pages are not modelled.
- The user-panel `formatFileSize`, `generateRandomString`, `generateToken`, `sendResponse`, `asyncHandler` and `cleanTempFiles` helpers are not modelled: one is floating point, one is randomness, and the others are Express glue and the filesystem.
- `getFrames`: the database query, the search regex and the Cloudinary thumbnail URL are not modelled, only its arithmetic and `imageUrl` choice.
- `AuthMiddleware.AdminAuth`: the catch that would answer 500 is unreachable once `auth` handles its own errors, and is not modelled.
- Storing `JSON.stringify(undefined)` for a missing user is not modelled; the stored value is the user itself.
- SignupPage.SignupForm.Post / HandleSubmit: they post to the corrected path `/auth/signup`, not to `/api/auth/signup` as SignupPage.jsx:160 does. As written, every signup request goes to `<base>/api/api/auth/signup` and is answered 404. `AsWrittenSignupMissesRoute` proves that, and the Findings table records it.
- FrameElementModel.Valid: the `frameId` path and its `required` validator (FrameElement.js:4-8) are not modelled, so `ValidationFailures` never lists `frameId`. Every element the controllers build carries the id of the frame they have just saved.
- AdminFrameRoute.AdminValid: the admin schema's `frame_id` `required` check is not modelled either, for the same reason.
- Api.Dispatch: for a method other than GET, POST, PUT, PATCH or DELETE, `apiRequest` hands its whole options object to `request`. The model passes only the method and the body. A FormData body through `apiRequest` is not modelled either. No caller in the client does either.
- TemplateContext.Load: the template list is given as already-mapped templates, so a list whose mapping throws (a `null` entry) cannot be represented.
- TemplateContext.Reduce: a `null` or `undefined` saved design makes `design.id` throw in `UPDATE_DESIGN` and `DELETE_DESIGN`, and so does such a payload in `UPDATE_DESIGN` (`action.payload.id`). In the model these actions never throw: reading `id` of such a value gives `undefined`.
- Js.StrictEquals: `===` compares objects and arrays by reference. The model has no references and compares them by content, so two distinct objects with equal contents are equal here.
- Api.AttemptCases: the messages the JavaScript engine writes are given in V8's wording. These are the TypeError from reading `message` of a `null` error body and the SyntaxError "Unexpected end of JSON input". Other engines word them differently.

## Findings

| source | as written | input that shows it | evidently intended | confidence | as-written member | corrected member |
|---|---|---|---|---|---|---|
| AWT_PROJECT_USER_PANEL/client/src/pages/SignupPage.jsx:160 | posts to `/api/auth/signup` through `apiRequest`, which prefixes `/api` again (api.js:102) | any valid signup form: the URL is `<base>/api/api/auth/signup`, which matches no route (app.js:22, auth.routes.js:21) and is answered 404 `Route not found` (app.js:26) | post to `/auth/signup`, reaching `/api/auth/signup` | high, not executed | SignupPage.AsWrittenSignupMissesRoute | SignupPage.CorrectedSignupReachesRoute |
