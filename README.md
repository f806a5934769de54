# ClipIt client — a Dafny model of its decision logic

ClipIt is a code-snippet sharing site. Its browser client is a React
single-page application. This project models the client's decision logic
and proves properties about it; markup and styling are not modelled.

- **Post service.** The client pages the full post list by slicing it. It
  normalises single-post responses, which come either bare or wrapped in
  `{post}`.
- **Explore feed.** The first load replaces the list. Later loads append
  only posts whose ids are new, a short page ends the feed, and the list is
  filtered by tag.
- **Post create, edit and detail pages:**
  - tag editing and submit validation;
  - the error-to-message rules, which differ per page;
  - the author check that guards the edit form;
  - the form prefill from a loaded post;
  - what each page renders.
- **Post card.** Code truncated to ten lines, and the relative-age ladder. The detail page's `formatDate` (`src/pages/PostDetail.tsx`, lines 58-83) is the same ladder, so `PostCard.AgeLabel` and `PostCard.AgeText` model it too.
- **Authentication:**
  - the service's local-storage effects;
  - the shared login state and its start-up check;
  - the social-login landing page;
  - the login and register forms, and the modal that holds them.
- **HTTP client.** It attaches the bearer token to each request. A 401
  triggers one token refresh and one replay of the request.
- **Theme.** The code-theme preference kept in storage.

## How the system is represented

**Modules.** There is one module per source file of the client. A few
support modules stand for what the client uses from the platform:

- `Wrappers`: option and result types.
- `Text`: the string primitives the client calls — `trim`, `toLowerCase`,
  `split("\n")`/`join("\n")`, number formatting.
- `Json`: response bodies, with JavaScript truthiness, `typeof ... === "object"`
  and the `in` operator.
- `Users`: the cached user record and its text form.
- `Storage`: local storage, as a class over `map<string, string>`.
- `Http`: the shape of requests and of rejected calls.

**Classes.** Each page, form and context whose state the source updates
step by step is a class. Its fields are that component's state, and its
methods are the component's handlers and effects.

**Outcomes as parameters.** Every network call is given to the method as
its settled outcome: a `Result` holding the body or the rejection.
Methods return what the component would send or where it navigates, for
example the request paths asked for, the request body, or the route.

**Two representations of a post.** Lists of posts use a typed `Post`
record. Single-post responses are JSON values, because the decoder exists
to tell their shapes apart. `EncodePost` links the two: the lemmas about
decoding, prefilling and ownership are stated on encoded typed posts.

## Model

| member | source | states |
|---|---|---|
| PostService.AllPosts | src/api/postService.ts:43-46 | the full list is empty exactly when the body is not an array or is an empty array |
| PostService.StartIndex | src/api/postService.ts:54 | a page's window starts at a non-negative index for any page from 1 on |
| PostService.Slice | src/api/postService.ts:56 | `slice` returns at most the list; in-range bounds give that window; an end at or before the start gives `[]` |
| PostService.StartIndexStep | src/api/postService.ts:54-55 | the next page starts where this page's window ends |
| PostService.StartIndexGrows | src/api/postService.ts:54 | a later page starts at least one whole page further on |
| PostService.FetchPosts | src/api/postService.ts:49-57 | a non-array body gives no posts; a page holds at most `pageSize` posts; a page starting past the end is empty; otherwise it is the contiguous window from its start index |
| PostService.PageIsWindow | src/api/postService.ts:53-56 | every page is the slice of the full list between its clamped bounds |
| PostService.PagesUpToIsPrefix | src/api/postService.ts:53-56 | pages 1..k concatenated are the first `min(k*size, n)` posts of the list |
| PostService.ShortPageIsLast | src/api/postService.ts:53-56 | after a page shorter than the page size, every later page is empty |
| PostService.FetchPostById | src/api/postService.ts:60-74 | only object and array bodies are accepted; a `post` key yields its value, any other accepted body is returned as is; rejection is a plain error |
| PostService.FetchPostByIdCall | src/api/postService.ts:60-74 | a failed request rejects with its own error; an answered one is decoded by `FetchPostById` |
| PostService.CreatePost | src/api/postService.ts:77-93 | accepted exactly when the body is an object with `post` or `id`; `post` takes precedence; otherwise a plain error |
| PostService.CreatePostCall | src/api/postService.ts:77-93 | a failed request rejects with its own error; an answered one is decoded by `CreatePost` |
| PostService.UpdatePostCall | src/api/postService.ts:113-122 | a failed call rejects with its own error; a `null` body throws; otherwise yields the body's `post` field |
| PostService.EncodePost | src/api/postService.ts:5-15 | an encoded post is an object with an `id` and no `post` key |
| PostService.BothShapesAccepted | src/api/postService.ts:63-70 | the bare and the wrapped shape of an encoded post decode to the same post, when reading and when creating |
| PostService.FetchPostsByAuthor | src/api/postService.ts:96-101 | a `null` body throws; a truthy `posts` field is the result; a missing or falsy one gives `[]` |
| PostService.FetchMyPosts | src/api/postService.ts:104-110 | a cached text that does not parse throws a plain error; a parsed user without a non-empty id gives `[]` with no request; otherwise exactly that user's id is asked for and the answer decoded |
| PostService.SavedUserPostsAsked | src/api/postService.ts:104-107 | after saving a user with a non-empty id, the request names that id |
| PostService.SavedUserWithoutIdGetsNone | src/api/postService.ts:105-109 | a saved user without an id gives `[]` and no request |
| PostService.TextField | src/pages/PostEdit.tsx:83-85 | a text field reads back the stored text, or the empty text when absent or not text |
| PostService.Texts | src/pages/PostEdit.tsx:87 | a list read as texts has the same length, entry by entry |
| PostService.TextsOfEncoded | src/pages/PostEdit.tsx:87 | a list of texts encoded and read back is itself |
| PostService.TagsField | src/pages/PostEdit.tsx:87 | tags are read only from a list made of texts only, as those texts; anything else reads as no tags |
| PostService.LanguageOrDefault | src/pages/PostEdit.tsx:86 | the language is never empty: a non-empty text language is kept, anything else becomes `"javascript"` |
| PostService.ReadEncodedPost | src/pages/PostEdit.tsx:81-88 | on an encoded post the readers give back its title, description, code, author id, tags and the defaulted language |
| Explore.NewPosts | src/pages/Explore.tsx:37-40 | the filtered page holds exactly the page's posts whose ids were not seen |
| Explore.AppendUnique | src/pages/Explore.tsx:36-42 | the old list is an unchanged prefix; what follows comes from the page with unseen ids; length bounds |
| Explore.AppendUniqueIds | src/pages/Explore.tsx:36-42 | the ids afterwards are the old ids plus the page's ids |
| Explore.NewPostsOfConcat | src/pages/Explore.tsx:38-40 | filtering keeps page order: it distributes over concatenation |
| Explore.NewPostsDistinct | src/pages/Explore.tsx:38-40 | filtering a page with distinct ids gives distinct ids |
| Explore.AppendUniqueDistinct | src/pages/Explore.tsx:36-42 | distinct ids in the old list and in the page give distinct ids after appending |
| Explore.AppendUniqueDistinctWhen | src/pages/Explore.tsx:36-42 | the same fact as an implication, for use by the loader's contract |
| Explore.AccumulateDistinct | src/pages/Explore.tsx:33-42 | any sequence of loads of distinct-id pages keeps the list duplicate-free and never rewrites its prefix |
| Explore.DuplicatesInPageKept | src/pages/Explore.tsx:37-41 | duplicates inside one page are not removed |
| Explore.NewPostsAllUnseen | src/pages/Explore.tsx:38-40 | a page with no seen id passes the filter whole |
| Explore.TagMatches | src/pages/Explore.tsx:66-70 | a post is kept exactly when one of its tags equals the selected tag up to case |
| Explore.FilteredPosts | src/pages/Explore.tsx:63-70 | the "전체" tag keeps every post; any other keeps exactly the posts having that tag, ignoring case |
| Explore.TagMatchesOfConcat | src/pages/Explore.tsx:66-70 | the tag filter keeps feed order |
| Explore.LoadErrorMessage | src/pages/Explore.tsx:47-54 | 401 first, then the server message, then the generic text |
| Explore.ShouldLoadMore | src/pages/Explore.tsx:77-82 | a selected tag other than "전체", a running load or no further page each block loading more |
| Explore.FeedLoader.constructor | src/pages/Explore.tsx:12-17 | the initial feed state: empty, tag "전체", page 1, more pages expected |
| Explore.FeedLoader.LoadPosts | src/pages/Explore.tsx:23-60 | nothing happens while loading; a first load replaces the list, a later one appends unseen posts; `hasNextPage` is whether the page was full; the page number is recorded; a failure keeps the list and sets the mapped error; distinct ids are kept |
| Explore.FeedLoader.OnIntersect | src/pages/Explore.tsx:77-85 | the next page is loaded only when visible, more pages are expected, nothing is loading and the tag is "전체"; the list grows by that page's unseen posts; the tag stays |
| Explore.FeedLoader.HandleTagChange | src/pages/Explore.tsx:110-112 | a tag change only sets the selected tag |
| Explore.FeedLoader.HandleRetry | src/pages/Explore.tsx:120-125 | retry empties the list, resets to page 1 with more pages expected, then loads page 1; the tag stays |
| Explore.FeedIsServerPrefix | src/pages/Explore.tsx:33-46 | after loading pages 1..k in order, the feed is exactly the server list's prefix of `k*10` posts |
| Explore.FeedStep | src/pages/Explore.tsx:36-42 | one continuation load extends that prefix by the next window |
| Explore.AppendWindow | src/pages/Explore.tsx:36-42 | appending the next window of a distinct-id list to its prefix gives the longer prefix |
| Explore.WindowUnseen | src/pages/Explore.tsx:37-40 | a window of a distinct-id list holds no id of the part before it |
| Explore.ShortPageEndsFeed | src/pages/Explore.tsx:45 | after a short page no continuation is requested, and any later page would be empty |
| PostCreate.AddTag | src/pages/PostCreate.tsx:57-66 | the trimmed input is appended and the box cleared exactly when it is non-empty and new; otherwise nothing changes |
| PostCreate.RemoveTag | src/pages/PostCreate.tsx:68-73 | every copy of the tag goes; every other entry keeps its count |
| PostCreate.RemoveTagOfConcat | src/pages/PostCreate.tsx:71 | removal keeps the survivors' order |
| PostCreate.AddTagKeepsWellFormed | src/pages/PostCreate.tsx:57-66 | adding keeps the list duplicate-free, non-blank and trimmed |
| PostCreate.RemoveTagKeepsWellFormed | src/pages/PostCreate.tsx:68-73 | removing keeps the same |
| PostCreate.TagActionsKeepWellFormed | src/pages/PostCreate.tsx:57-80 | any sequence of adds and removes from an empty list keeps it duplicate-free, non-blank and trimmed |
| PostCreate.BuildRequest | src/pages/PostCreate.tsx:86-106 | a blank title fails first, then a blank code; otherwise the request carries the trimmed title, description and code and the tags unchanged |
| PostCreate.CreateErrorMessage | src/pages/PostCreate.tsx:116-124 | server message first, then 401, then 403, then the generic text |
| PostCreate.CreatedPath | src/pages/PostCreate.tsx:111 | a `null` created post throws a plain error; any other navigates to `/posts/` followed by `String(id)` |
| PostCreate.SubmitOutcome | src/pages/PostCreate.tsx:108-124 | a failed request passes its error on; an answered body the service rejects gives the service's own error; a decoded created post leads to exactly its `CreatedPath` |
| PostCreate.CreatedPostOpens | src/pages/PostCreate.tsx:108-111 | creating an encoded post, bare or wrapped, opens `/posts/` plus its id |
| PostCreate.NullCreatedFails | src/api/postService.ts:84-86 | `{post: null}` is accepted by the service as `null`, then the page reports the generic failure |
| PostCreate.CreatePage.constructor | src/pages/PostCreate.tsx:23-34 | the empty form with language "javascript" |
| PostCreate.CreatePage.HandleAddTag | src/pages/PostCreate.tsx:57-66 | the tag list and input become `AddTag`'s result; the list stays well formed |
| PostCreate.CreatePage.HandleRemoveTag | src/pages/PostCreate.tsx:68-73 | the tag list becomes `RemoveTag`'s result; the list stays well formed |
| PostCreate.CreatePage.HandleKeyPress | src/pages/PostCreate.tsx:75-80 | Enter does what the add button does; other keys change nothing |
| PostCreate.CreatePage.HandleSubmit | src/pages/PostCreate.tsx:82-128 | a validation failure sets its message and sends nothing; otherwise the shaped request is sent and the page navigates to `/posts/` plus the created post's id, or shows the mapped error, including the generic text for a `null` created post |
| PostEdit.CheckAccess | src/pages/PostEdit.tsx:71-79 | no user is denied; only a `null` post with a user throws; with a truthy `author` the user is allowed exactly when the author's `email` is theirs; with a missing or falsy `author`, exactly when `authorId` is their email |
| PostEdit.FalsyAuthorFallsBack | src/pages/PostEdit.tsx:71-74 | a post with `"author": null` is editable exactly by the user whose email is its `authorId` |
| PostEdit.AuthorOverridesAuthorId | src/pages/PostEdit.tsx:71-74 | an author object decides alone: its `email` must be the user's |
| PostEdit.AccessToEncodedPost | src/pages/PostEdit.tsx:71-75 | a post with an author is editable exactly by the user with the author's email; one without, exactly by the user whose email is its `authorId` |
| PostEdit.PrefillShowsPost | src/pages/PostEdit.tsx:81-88 | the prefilled form shows the post's title, description, code and tags; an empty or absent language becomes "javascript" |
| PostEdit.UntouchedFormResends | src/pages/PostEdit.tsx:150-159 | saving the untouched form sends the post's own fields back, trimmed |
| PostEdit.SetField | src/pages/PostEdit.tsx:102-107 | exactly the named field takes the new value |
| PostEdit.FormFromPost | src/pages/PostEdit.tsx:81-88 | the prefilled language is never empty; a text title is copied; a missing or non-text code prefills as empty |
| PostEdit.LoadErrorMessage | src/pages/PostEdit.tsx:89-93 | the server message, else the generic load text |
| PostEdit.UpdateErrorMessage | src/pages/PostEdit.tsx:163-175 | server message first, then 401, then 403, then the generic text |
| PostEdit.EditPage.constructor | src/pages/PostEdit.tsx:29-42 | loading, no post, empty form with language "javascript" |
| PostEdit.EditPage.Render | src/pages/PostEdit.tsx:185-207 | the spinner exactly while loading; the full-page error exactly when an error is shown and no post was loaded, with that error's text; otherwise the form |
| PostEdit.EditPage.FetchPost | src/pages/PostEdit.tsx:58-100 | no id gives the no-id error without a request; a failure gives the mapped message; a denied user gets the permission error and no prefill, and a fresh page then renders the full-page permission error; loading always ends; on a fresh page the form is shown exactly when the post loaded and the user owns it |
| PostEdit.EditPage.HandleInputChange | src/pages/PostEdit.tsx:102-107 | the form becomes `SetField`'s result |
| PostEdit.EditPage.HandleAddTag | src/pages/PostEdit.tsx:109-118 | the same add rule as the creation page; other form fields untouched |
| PostEdit.EditPage.HandleRemoveTag | src/pages/PostEdit.tsx:120-125 | the same remove rule as the creation page |
| PostEdit.EditPage.HandleKeyPress | src/pages/PostEdit.tsx:127-132 | Enter adds; other keys change nothing |
| PostEdit.EditPage.HandleSubmit | src/pages/PostEdit.tsx:134-179 | validation first; a missing id then stops silently; otherwise the trimmed request is sent and the page navigates to the post or shows the mapped error |
| PostDetail.DetailErrorMessage | src/pages/PostDetail.tsx:34-42 | 404 first, then 401, then the server message, then the generic text |
| PostDetail.DetailPage.constructor | src/pages/PostDetail.tsx:12-14 | no post, loading, no error |
| PostDetail.DetailPage.Render | src/pages/PostDetail.tsx:89-111 | the loading view exactly while loading; then a set error is shown; otherwise a missing or falsy post gives the not-found page; the post page exactly for a loaded, truthy post |
| PostDetail.DetailPage.Mount | src/pages/PostDetail.tsx:16-51 | without an id nothing is asked and the page keeps loading; with one, loading ends with the post or the mapped error; a `null` post renders the not-found page |
| PostDetail.EncodedPostRendered | src/pages/PostDetail.tsx:28-29 | an encoded post, bare or wrapped, loads as itself and is truthy |
| PostDetail.NullPostNotFound | src/pages/PostDetail.tsx:97-101 | a `{post: null}` body loads as `null`, and a settled page holding it renders the not-found page |
| PostDetail.StatusBeforeMessage | src/pages/PostDetail.tsx:34-42 | a 404 carrying a message reads "not found" here but shows the message on the edit page |
| PostDetail.LanguageDefaults | src/pages/PostDetail.tsx:149 | an empty language is shown as "javascript" here, but stays empty on a card |
| PostCard.LongCodeTruncated | src/components/post/PostCard.tsx:46-47 | longer code becomes a proper prefix ending before a newline, plus "\n..."; its lines are the first ten and "..." |
| PostCard.TruncateCode | src/components/post/PostCard.tsx:41-45 | code of at most ten lines is shown unchanged |
| PostCard.AgeLabel | src/components/post/PostCard.tsx:55-76 | each label holds exactly on its range of the distance (under a minute, minutes, hours, 24 to 48 hours, 2 to 6 days, a week on); each count is the floored quotient |
| PostCard.FutureLikePast | src/components/post/PostCard.tsx:55-58 | a future time gets the label of a past one at the same distance |
| PostCard.AgeBetween | src/components/post/PostCard.tsx:55-76 | "just now" exactly within a minute either way; an absolute date exactly from a week either way |
| PostCard.AgeText | src/components/post/PostCard.tsx:60-76 | "방금 전" and "어제" for their labels; otherwise the count in decimal, reading back as the count, followed by "분 전", "시간 전" or "일 전"; only the absolute date has no text here |
| PostCard.CountText | src/components/post/PostCard.tsx:63-69 | a count printed before a unit reads back as that count |
| PostCard.AgeTextShowsFlooredCount | src/components/post/PostCard.tsx:55-70 | the text shows the floored number of minutes, hours or days of the distance, per range |
| PostCard.DisplayName | src/components/post/PostCard.tsx:37 | never empty: the author's name when non-empty, else "알 수 없는 사용자" |
| PostCard.CardLanguage | src/components/post/PostCard.tsx:30 | an absent language becomes "javascript"; a given one, even empty, is kept |
| RegisterForm.SubmitCheck | src/components/auth/RegisterForm.tsx:90-113 | each of the five messages is given exactly when every earlier check passes and its own fails; `None` exactly when all pass; lengths in UTF-16 code units |
| RegisterForm.CanSubmit | src/components/auth/RegisterForm.tsx:33-38 | an enabled button means idle, verified, matching passwords of at least two characters (four code units) |
| RegisterForm.PassingChecksMeanEnabled | src/components/auth/RegisterForm.tsx:33-38 | whenever the checks pass on an idle form, the button was enabled |
| RegisterForm.EnabledButRefused | src/components/auth/RegisterForm.tsx:33-38 | the converse fails: an enabled button can still be refused (cleared code, cleared e-mail) |
| RegisterForm.TwoEmojiPasswordLongEnough | src/components/auth/RegisterForm.tsx:37 | a two-emoji password counts as four long, so it enables the button and passes the checks |
| RegisterForm.RegisterErrorMessage | src/components/auth/RegisterForm.tsx:125-129 | the server's `error` field of an HTTP error, else the generic text |
| RegisterForm.RegisterForm.constructor | src/components/auth/RegisterForm.tsx:21-32 | every field empty and every flag down |
| RegisterForm.RegisterForm.HandleSendCode | src/components/auth/RegisterForm.tsx:46-65 | no '@' gives the format error and no request; otherwise success raises the sent flag, failure shows the send error; the flag is never lowered |
| RegisterForm.RegisterForm.HandleVerifyCode | src/components/auth/RegisterForm.tsx:67-85 | a code shorter than four UTF-16 code units gives the code error and no request; success verifies; once verified, always verified |
| RegisterForm.RegisterForm.HandleSubmit | src/components/auth/RegisterForm.tsx:87-133 | a failed check sends nothing and leaves the loading flag, the shared state and storage alone; otherwise register, then login only if register succeeded, then the shared login; the body carries the code; a failed register or login leaves the shared user, login flag and storage as they were |
| LoginForm.LoginForm.constructor | src/components/auth/LoginForm.tsx:21-24 | empty fields, no error, not loading |
| LoginForm.LoginForm.HandleSubmit | src/components/auth/LoginForm.tsx:28-49 | empty fields stop without a request; success logs the shared state in with the returned user and token; every failure gives one fixed message; loading ends |
| LoginModal.ModalHeight | src/components/auth/LoginModal.tsx:19-25 | 700 or 625 on the login step by the login error; 600 plus 90 and 60 for the register flags otherwise; always within 600..750 |
| LoginModal.Modal.Height | src/components/auth/LoginModal.tsx:19-25 | within 600..750; a closed modal is 625 or 600 high |
| LoginModal.Modal.constructor | src/components/auth/LoginModal.tsx:11-16 | the login step with every flag down |
| LoginModal.Modal.SetOpen | src/components/auth/LoginModal.tsx:27-55 | opening renders; closing clears the three flags; the step is kept |
| LoginModal.Modal.GoToStep | src/components/auth/LoginModal.tsx:57-63 | moving to a different step other than register clears the three flags; staying on the same step or moving to register keeps them; only steps 0 and 1 are reached |
| LoginModal.Modal.ReportLoginError | src/components/auth/LoginModal.tsx:123-128 | only the shown login form sets the login-error flag |
| LoginModal.Modal.ReportRegisterError | src/components/auth/LoginModal.tsx:133-139 | only the shown register form sets the register-error flag |
| LoginModal.Modal.ReportEmailSent | src/components/auth/LoginModal.tsx:133-139 | only the shown register form sets the code-sent flag |
| AuthService.Login | src/api/authService.ts:59-71 | only a non-empty token is stored |
| AuthService.Logout | src/api/authService.ts:74-81 | the token is removed only after success; the cached user stays |
| AuthService.GetUserInfo | src/api/authService.ts:112-116 | the fetched user is cached |
| AuthService.GetCurrentUser | src/api/authService.ts:124-130 | no user without a non-empty cached text; an unreadable text throws |
| AuthService.SaveUser | src/api/authService.ts:133-135 | the user's text is stored under "user" |
| AuthService.ClearUser | src/api/authService.ts:138-140 | only "user" is removed |
| AuthService.ClearAuth | src/api/authService.ts:143-146 | exactly "accessToken" and "user" are removed |
| AuthService.SavedUserReadBack | src/api/authService.ts:124-135 | a saved user reads back as itself |
| AuthService.ClearedAuthIsLoggedOut | src/api/authService.ts:119-146 | after `clearAuth` nobody is logged in and no user is cached |
| AuthService.StoredTokenLogsIn | src/api/authService.ts:119-121 | a stored token counts as logged in exactly when non-empty |
| AuthContext.InitialUser | src/context/AuthContext.tsx:22 | the start-up user is the cached one |
| AuthContext.LoginSurvivesReload | src/context/AuthContext.tsx:58-63 | after a login with a non-empty token, a fresh provider starts as that user, logged in |
| AuthContext.CachedUserWithoutToken | src/context/AuthContext.tsx:22-25 | before the check settles, a cached user can sit beside a logged-out state |
| AuthContext.AuthProvider.constructor | src/context/AuthContext.tsx:22-26 | state read from storage; loading; it agrees with storage |
| AuthContext.AuthProvider.CheckLogin | src/context/AuthContext.tsx:28-56 | no token: logged out with no request; token checked, then user fetched and cached; any failure clears storage; loading ends; logged in exactly when a user is set; state agrees with storage |
| AuthContext.AuthProvider.Login | src/context/AuthContext.tsx:58-63 | user cached, token stored, state logged in; it agrees with storage exactly when the token is non-empty |
| AuthContext.AuthProvider.Logout | src/context/AuthContext.tsx:65-69 | storage cleared, state logged out, agreeing with storage |
| AuthSuccess.Authenticate | src/components/auth/AuthSuccess.tsx:10-31 | no token: home, nothing written; otherwise the token is stored first, so the user request carries it; success logs in and goes to /explore; failure removes only the token and goes home |
| HttpClient.AttachBearer | src/api/axios.ts:15-24 | a bearer header exactly when a non-empty token is stored; nothing else changes |
| HttpClient.AttachBearerIdempotent | src/api/axios.ts:17-20 | attaching twice is attaching once |
| HttpClient.RefreshedToken | src/api/axios.ts:43-44 | a `null` refresh body throws; a text token is stored as is; a missing one as "undefined" |
| HttpClient.Send | src/api/axios.ts:27-65 | at most one refresh and one replay per request, never for a replayed one; the replay carries the new token; a failed refresh rejects with its own error and, on 403, clears storage and redirects; anything else passes through unchanged |
| ThemeContext.InitialTheme | src/context/ThemeContext.tsx:14-17 | the stored theme when non-empty, else "oneDark"; never empty |
| ThemeContext.DefaultIsKnown | src/styles/syntaxThemes.ts:19-32 | the default is one of the twelve themes |
| ThemeContext.UnknownThemeAdopted | src/context/ThemeContext.tsx:16 | an unknown stored name is adopted |
| ThemeContext.ThemeSurvivesClearAuth | src/api/authService.ts:143-146 | clearing the login leaves the theme |
| ThemeContext.ThemeProvider.constructor | src/context/ThemeContext.tsx:14-17 | the theme is read from storage |
| ThemeContext.ThemeProvider.SetCodeTheme | src/context/ThemeContext.tsx:20-23 | the theme is set and stored, so a reload starts with it; an empty name reloads as the default |
| Text.TrimIsTrimmed | src/pages/PostCreate.tsx:58 | a trimmed text has no surrounding white space, and trimming again changes nothing |
| Text.TrimmedFixed | src/pages/PostCreate.tsx:58 | a text without surrounding white space is its own trim |
| Text.Trim | src/pages/PostCreate.tsx:58 | the trim is the contiguous middle part of the text; everything dropped before and after it is white space |
| Text.TrimStartDropsSpace | src/pages/PostCreate.tsx:58 | what is dropped at the front is white space |
| Text.TrimEndDropsSpace | src/pages/PostCreate.tsx:58 | what is dropped at the back is white space |
| Text.TrimEmptyIff | src/pages/PostCreate.tsx:86-94 | a text trims to empty exactly when it is all white space |
| Text.ToLower | src/pages/Explore.tsx:68 | lower-casing keeps length and maps each character |
| Text.Lines | src/components/post/PostCard.tsx:42 | a split has at least one line and no line holds a newline |
| Text.JoinLinesOfLines | src/components/post/PostCard.tsx:42-47 | joining the lines of a text gives the text back |
| Text.LinesOfJoinLines | src/components/post/PostCard.tsx:42-47 | splitting a join of newline-free lines gives the lines back |
| Text.JoinLinesSplit | src/components/post/PostCard.tsx:46-47 | a join splits at any inner line boundary |
| Text.Decimal | src/components/post/PostCard.tsx:63-69 | a number's decimal text is non-empty, all digits, without a leading zero from 10 on |
| Text.DecimalValue | src/components/post/PostCard.tsx:63-69 | the decimal text of a number reads back as that number |
| Text.Utf16Length | src/components/auth/RegisterForm.tsx:37 | `.length` counts between one and two code units per character |
| Text.BmpLength | src/components/auth/RegisterForm.tsx:37 | without characters beyond the Basic Multilingual Plane, `.length` is the character count |
| Text.AstralCountsTwice | src/components/auth/RegisterForm.tsx:37 | a character beyond the Basic Multilingual Plane counts twice |
| Users.ReadEncodedField | src/api/authService.ts:114 | one stored field reads back as itself, leaving the rest |
| Users.ParseEncodedUser | src/api/authService.ts:114-130 | a stored user parses back to itself |
| Json.Get | src/api/postService.ts:64-67 | a field is present exactly for an object holding that key |
| Json.JsString | src/api/axios.ts:43-44 | `String(v)` of a token: `undefined`, a text as is, a number in decimal with its sign |
| Json.NumberPrintsBack | src/api/axios.ts:43-44 | a non-negative number token is stored as digits that read back as the number |
| Storage.Store.SetItem | src/api/authService.ts:67 | exactly the key is set |
| Storage.Store.RemoveItem | src/api/authService.ts:78 | exactly the key is removed |

## Left out

- Markup, styling, icons and animation are not modelled. The model keeps only what decides state, requests and navigation.
- The network is not modelled. Each call enters as its settled outcome. Concurrent 401s each starting their own refresh are not modelled. Responses arriving after a page has gone are not modelled either.
- AuthSuccess.Authenticate, AuthContext.AuthProvider.CheckLogin, LoginForm.LoginForm.HandleSubmit, RegisterForm.RegisterForm.HandleSubmit: their calls enter as settled outcomes, so the storage writes the HTTP client makes during a call are not part of their contracts. A 401 answered by a successful refresh stores the new token, and a refresh rejected with 403 clears the token and the cached user. Those writes are modelled once, in `HttpClient.Send`, and the `storage unchanged` clauses of these four members hold only for calls that did not go through a refresh.
- The intersection observer is not modelled: `OnIntersect` is called with the visibility.
- The modal's animation frames and its 300 ms timeout are collapsed: `LoginModal.Modal.SetOpen` hides a closed modal at once.
- The page reload after a successful login or register is the forms' `succeeded` result. The redirect to "/" after a 403 refresh is the client's `redirect` result.
- Dates and the locale are not modelled. A timestamp is a millisecond count. The absolute-date label (`OnDate`) has no text here. The `catch` fallback of `formatDate` is left out, because `new Date` of a bad string does not throw.
- Lengths the source reads with `.length` are UTF-16 code units (`Text.Utf16Length`); every other text operation works on characters.
- `Text.IsSpace` lists the common white-space characters, not the full Unicode set `trim` uses. `Text.ToLower` folds ASCII letters only.
- `JSON.stringify`/`JSON.parse` of the cached user are modelled by a field codec with the same round-trip property. A stored text that is valid JSON but not a user record is not modelled.
- PostService.TextField: a prefilled field that is not text (a number, say) reads as the empty text. The source would copy the value itself, and later fail on `.trim()`.
- PostService.TagsField: a `tags` field that is not a list of texts reads as no tags. The source would copy it, and rendering would fail on a non-array.
- PostService.LanguageOrDefault: a truthy non-text language becomes "javascript". The source would pass the value through.
- Json.JsString: an array token is written as the empty text, not as JavaScript's comma-joined string.
- AuthContext.AuthProvider.constructor: a cached user that does not parse starts as no user. In the source, `getCurrentUser` throws during the first render.
- AuthService: `register`, `checkToken`, `sendEmailCode` and `verifyCode` only forward a response. They appear as the outcomes passed to `RegisterForm` and `AuthContext`, and as the paths those methods return.
- `deletePost` is not modelled, because no modelled page calls it. The routes (`App.tsx`, `PrivateRoute`, `MainRoute`), Settings, the header and the tag list are not modelled either. `App.tsx` declares no `/explore` route, although `AuthSuccess` navigates there.
- The language option lists of the create and edit pages are constant data and are not modelled. The highlighter themes' style objects are not modelled either; only their twelve names are.
