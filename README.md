# PR review, review-comment webhook and session page logic of liam

This project models, in Dafny, the small decision and string routines of five
files of the liam frontend, and proves what each one promises:

- **The schema-review endpoint** of the migration web app (`ReviewRoute`). It
  rewrites a GitHub pull request URL into the "list files" API URL with two
  first-occurrence replacements. It picks the first changed file whose name
  contains `Schemafile` or `schema.rb`, puts that file's patch into the review
  prompt, and streams the language model's answer. The handler returns the
  outbound calls it makes, in order, together with its response.
- **The review-comment webhook** (`PrCommentRoute`). It acts only on `INSERT`
  events. It checks the configuration in a fixed order: owner and repository
  first, then the app credentials. It then exchanges a token, reads the pull
  request's head commit, and posts the record's comment field for field. The
  environment is a map; the GitHub side is three function parameters.
- **The review window** (`PullRequestReviewWindow`). Its four pieces of React
  state are the fields of a class. `handleSubmit` is split into a
  validation-and-reset half and a response half. The response half has a
  `while` loop that appends every streamed chunk. The form's enable and
  visibility rules are a function of the state.
- **The mention-suggestion stories** (`MentionSuggestorStory`). The regular
  expression `\<trigger>[\w-]*$`, tested on the text before the cursor, is a
  predicate. A scan from the end decides it, and the scan is proved equivalent
  to the predicate. Key routing is a function, and the story's state is a class.
- **The session detail page** (`SessionDetailPage`). It models the quick-fix
  message and its inverse, and the render precedence and column layout. It
  also models the two routines that load a schema and a version. Each of these
  returns the ordered log of its service calls and state updates. The schema
  services and `safeParse` are function parameters.

`JsSemantics` holds the JavaScript built-ins these rely on, over Dafny
strings:

- `find` on a list, `indexOf` and `includes`;
- `replace` with a string pattern, which replaces only the first occurrence;
- `trim`, over the ECMAScript whitespace and line-terminator code points;
- `slice(0, n)`, which clamps its end and counts a negative end from the back;
- truthiness of a string that may be `null`;
- reading a value back out of a text built around it, which is the inverse used for the prompt and the quick-fix message.

## Model

| member | source | states |
|---|---|---|
| JsSemantics.ReplaceFirst | frontend/apps/migration-web/app/api/review_in_pull_request/route.ts:27 | `replace` with a string pattern: no occurrence leaves the string unchanged; otherwise exactly the first occurrence is replaced and the rest is kept |
| JsSemantics.Includes | frontend/apps/migration-web/app/api/review_in_pull_request/route.ts:39 | `includes` holds iff the pattern occurs somewhere in the string |
| JsSemantics.IndexOfFrom | frontend/apps/migration-web/app/api/review_in_pull_request/route.ts:27 | the search behind `replace`: the least occurrence at or after the start, or -1 exactly when there is none |
| JsSemantics.FirstMatchIndex | frontend/apps/migration-web/app/api/review_in_pull_request/route.ts:38-40 | the index of the first element satisfying the test: every earlier element fails it, and it satisfies it unless it is the list's length |
| JsSemantics.Find | frontend/apps/migration-web/app/api/review_in_pull_request/route.ts:38-40 | `find` returns undefined iff no element satisfies the test, and otherwise the first element in list order that does |
| JsSemantics.FindIgnoresLater | frontend/apps/migration-web/app/api/review_in_pull_request/route.ts:38-40 | once an element satisfies the test, appending elements never changes what `find` returns |
| JsSemantics.TrimStart | frontend/apps/migration-web/components/PullRequestReviewWindow/PullRequestReviewWindow.tsx:28 | the result is a suffix, every dropped character is whitespace, and the result does not start with whitespace |
| JsSemantics.TrimEnd | frontend/apps/migration-web/components/PullRequestReviewWindow/PullRequestReviewWindow.tsx:28 | the result is a prefix, every dropped character is whitespace, and the result does not end with whitespace |
| JsSemantics.Trim | frontend/apps/migration-web/components/PullRequestReviewWindow/PullRequestReviewWindow.tsx:28 | the trimmed text is no longer than the input and neither starts nor ends with whitespace |
| JsSemantics.TrimEmptyIff | frontend/apps/migration-web/components/PullRequestReviewWindow/PullRequestReviewWindow.tsx:28 | `!s.trim()` holds iff every character of `s` is whitespace |
| JsSemantics.IsBlank | frontend/apps/migration-web/components/PullRequestReviewWindow/PullRequestReviewWindow.tsx:28 | `!s.trim()` holds iff `s` is empty or all whitespace |
| JsSemantics.Unwrap | frontend/apps/app/components/SessionDetailPage/SessionDetailPageClient.tsx:51-55 | the text read back between a prefix and a suffix rebuilds the whole string with them |
| JsSemantics.UnwrapWrap | frontend/apps/app/components/SessionDetailPage/SessionDetailPageClient.tsx:51-55 | reading back what was put between a prefix and a suffix gives exactly that text |
| JsSemantics.SliceTo | frontend/apps/app/components/SessionDetailPage/components/Chat/components/ChatInput/components/MentionSuggestor/MentionSuggestor.stories.tsx:97 | `slice(0, n)` is the prefix of length `n` clamped to the string, with a negative `n` counted from the back |
| JsSemantics.IsFalsy | frontend/apps/migration-web/app/api/review_in_pull_request/route.ts:62 | a string that may be null is truthy iff it is present and non-empty |
| ReviewRoute.HostRewrite | frontend/apps/migration-web/app/api/review_in_pull_request/route.ts:27 | the first replacement turns `https://github.com/` + rest into `https://api.github.com/repos/` + rest |
| ReviewRoute.PullRewrite | frontend/apps/migration-web/app/api/review_in_pull_request/route.ts:27 | the second replacement turns the `/pull/` after owner and repository into `/pulls/`, when neither name is `pull` |
| ReviewRoute.FilesUrl | frontend/apps/migration-web/app/api/review_in_pull_request/route.ts:27-28 | the fetched URL always ends in `/files` |
| ReviewRoute.FilesUrlOfOtherUrl | frontend/apps/migration-web/app/api/review_in_pull_request/route.ts:27-28 | a URL containing neither `github.com` nor `/pull/` is fetched unchanged with `/files` appended |
| ReviewRoute.CanonicalFilesUrl | frontend/apps/migration-web/app/api/review_in_pull_request/route.ts:27-28 | a canonical pull request URL `https://github.com/o/r/pull/n` is fetched as `https://api.github.com/repos/o/r/pulls/n/files` |
| ReviewRoute.IsSchemaFile | frontend/apps/migration-web/app/api/review_in_pull_request/route.ts:38-39 | a file is chosen iff its name contains `Schemafile` or `schema.rb` somewhere |
| ReviewRoute.FindSchemaFile | frontend/apps/migration-web/app/api/review_in_pull_request/route.ts:38-40 | None iff no file name contains either marker; otherwise the first file in list order whose name contains one |
| ReviewRoute.FindSchemaFileIgnoresLaterFiles | frontend/apps/migration-web/app/api/review_in_pull_request/route.ts:38-42 | once a schema file is in the list, appending more files never changes the choice |
| ReviewRoute.FetchSchemaChanges | frontend/apps/migration-web/app/api/review_in_pull_request/route.ts:25-47 | network failure, a non-2xx status, a body that is not a file list and no matching file all give null; a 2xx file list with a matching file gives exactly the first matching file's patch, and any non-null result is that patch |
| ReviewRoute.FillSlot | frontend/apps/migration-web/app/api/review_in_pull_request/route.ts:8-23 | filling the one `{schema_changes}` slot of a template whose head has no brace replaces exactly the slot and keeps the rest of the template |
| ReviewRoute.Prompt | frontend/apps/migration-web/app/api/review_in_pull_request/route.ts:69-74 | the prompt reads back, through `SchemaChangesOf`, to exactly the patch it was built from |
| ReviewRoute.SchemaChangesOf | frontend/apps/migration-web/app/api/review_in_pull_request/route.ts:8-23 | whatever is read back out of a prompt rebuilds that prompt |
| ReviewRoute.PromptRoundTrip | frontend/apps/migration-web/app/api/review_in_pull_request/route.ts:18-21 | the patch is placed verbatim between the `"""` delimiters and is recovered unchanged from the prompt |
| ReviewRoute.IsValidPrUrl | frontend/apps/migration-web/app/api/review_in_pull_request/route.ts:53 | a URL field passes iff it is a string and truthy |
| ReviewRoute.Post | frontend/apps/migration-web/app/api/review_in_pull_request/route.ts:49-84 | unreadable body → 500 with no call; missing, empty or non-string URL → 400 with no call; otherwise the files fetch comes first; a falsy patch ↔ 400 "No Schemafile changes", and then the files fetch is the only call; the model is called iff the patch is truthy, once, with the filled prompt, and its stream or failure is the answer |
| PrCommentRoute.Authenticate | frontend/apps/migration-web/app/api/github-pr-comment/route.ts:20-46 | a missing or empty credential ↔ the credentials error with no exchange; otherwise exactly one exchange with the configured values |
| PrCommentRoute.IsSet | frontend/apps/migration-web/app/api/github-pr-comment/route.ts:26 | an environment variable counts as set iff it is present and truthy |
| PrCommentRoute.HasCredentials | frontend/apps/migration-web/app/api/github-pr-comment/route.ts:26 | the credentials are missing iff any one of the app id, private key and installation id is not set |
| PrCommentRoute.CommentRequestFor | frontend/apps/migration-web/app/api/github-pr-comment/route.ts:67-76 | every field of the comment POST is copied from the record, `side` is `RIGHT` and `commit_id` is the given head SHA |
| PrCommentRoute.CreatePRComment | frontend/apps/migration-web/app/api/github-pr-comment/route.ts:49-79 | authentication, then the pull request GET for the same owner/repo/number, then the POST with that GET's SHA; success iff all three succeed; a rejected authentication or GET ends the chain with that rejection's message and no later call; after a successful GET the result is the POST's |
| PrCommentRoute.Post | frontend/apps/migration-web/app/api/github-pr-comment/route.ts:81-117 | unreadable body → 500 with its message; non-INSERT → "No action required" with no call; owner/repo checked before credentials, both before any call; once both are set, the calls are those of `createPRComment` and the answer is `{success: true}` iff it succeeds, otherwise 500 with the rejection's message |
| PrCommentRoute.AtMostOneComment | frontend/apps/migration-web/app/api/github-pr-comment/route.ts:98-107 | a delivery creates at most one comment, and a successful one exactly one |
| PullRequestReviewWindow.ConcatAppend | frontend/apps/migration-web/components/PullRequestReviewWindow/PullRequestReviewWindow.tsx:57-63 | appending one chunk to the joined text equals joining the longer chunk list |
| PullRequestReviewWindow.ConcatSplit | frontend/apps/migration-web/components/PullRequestReviewWindow/PullRequestReviewWindow.tsx:57-63 | joining is compatible with any split of the stream: nothing is added, dropped or reordered at chunk boundaries |
| PullRequestReviewWindow.MessageOf | frontend/apps/migration-web/components/PullRequestReviewWindow/PullRequestReviewWindow.tsx:66-68 | an `Error` shows its own message; any other thrown value shows the generic review error |
| PullRequestReviewWindow.SubmitOutcome | frontend/apps/migration-web/components/PullRequestReviewWindow/PullRequestReviewWindow.tsx:46-68 | no error iff the body was read to the end; the result is the joined chunks whenever a body arrived, else empty; each failure kind gives its own message |
| PullRequestReviewWindow.ReviewWindow.constructor | frontend/apps/migration-web/components/PullRequestReviewWindow/PullRequestReviewWindow.tsx:12-15 | the initial state: empty URL, not loading, no error, empty result |
| PullRequestReviewWindow.ReviewWindow.ChangeUrl | frontend/apps/migration-web/components/PullRequestReviewWindow/PullRequestReviewWindow.tsx:88 | the input's change handler sets only the URL |
| PullRequestReviewWindow.ReviewWindow.StartSubmit | frontend/apps/migration-web/components/PullRequestReviewWindow/PullRequestReviewWindow.tsx:25-35 | a blank URL only sets the "valid URL" error and makes no request; otherwise loading starts, error and result are cleared, and the untrimmed URL is sent |
| PullRequestReviewWindow.ReviewWindow.RejectBlankUrl | frontend/apps/migration-web/components/PullRequestReviewWindow/PullRequestReviewWindow.tsx:29 | a blank URL sets only the error, to the "valid URL" message |
| PullRequestReviewWindow.ReviewWindow.BeginRequest | frontend/apps/migration-web/components/PullRequestReviewWindow/PullRequestReviewWindow.tsx:33-35 | before the request, loading starts and the error and result are cleared |
| PullRequestReviewWindow.ReviewWindow.FinishSubmit | frontend/apps/migration-web/components/PullRequestReviewWindow/PullRequestReviewWindow.tsx:37-71 | each failure kind sets its message; the read loop appends every chunk in order to the result; a read failure keeps the streamed text; loading always ends |
| PullRequestReviewWindow.ReviewWindow.HandleSubmit | frontend/apps/migration-web/components/PullRequestReviewWindow/PullRequestReviewWindow.tsx:25-72 | a whole submission: blank URL leaves loading and result alone; otherwise loading ends and error and result are exactly the outcome for that reply |
| PullRequestReviewWindow.ReviewWindow.HandleReset | frontend/apps/migration-web/components/PullRequestReviewWindow/PullRequestReviewWindow.tsx:74-78 | URL, result and error are cleared; loading is unchanged |
| PullRequestReviewWindow.ReviewWindow.View | frontend/apps/migration-web/components/PullRequestReviewWindow/PullRequestReviewWindow.tsx:80-129 | submit disabled iff loading or the URL is all whitespace; Reset shown iff the result is non-empty; the error shown iff non-empty; the spinner iff loading with no text yet |
| MentionSuggestorStory.MatchesMentionAtEndIff | frontend/apps/app/components/SessionDetailPage/components/Chat/components/ChatInput/components/MentionSuggestor/MentionSuggestor.stories.tsx:94 | the scan from the end holds iff some trigger is followed only by `[A-Za-z0-9_-]` up to the end |
| MentionSuggestorStory.MatchesMentionAtEnd | frontend/apps/app/components/SessionDetailPage/components/Chat/components/ChatInput/components/MentionSuggestor/MentionSuggestor.stories.tsx:94 | a match needs a non-empty text ending in the trigger or a mention character |
| MentionSuggestorStory.SuggestionsVisible | frontend/apps/app/components/SessionDetailPage/components/Chat/components/ChatInput/components/MentionSuggestor/MentionSuggestor.stories.tsx:94-97 | suggestions are visible iff the clamped text before the cursor ends in the trigger and mention characters |
| MentionSuggestorStory.TextAfterCursorIrrelevant | frontend/apps/app/components/SessionDetailPage/components/Chat/components/ChatInput/components/MentionSuggestor/MentionSuggestor.stories.tsx:97 | text after the cursor never changes visibility |
| MentionSuggestorStory.HandleSuggestionKeyDown | frontend/apps/app/components/SessionDetailPage/components/Chat/components/ChatInput/components/MentionSuggestor/MentionSuggestor.stories.tsx:88-124 | default prevented iff suggestions are visible and the key is one of the five navigation keys; an event is forwarded iff that holds and the list is present, with the same key, code and key code, bubbling |
| MentionSuggestorStory.MentionStory.constructor | frontend/apps/app/components/SessionDetailPage/components/Chat/components/ChatInput/components/MentionSuggestor/MentionSuggestor.stories.tsx:139-141 | the story starts from its args' input and cursor with nothing selected |
| MentionSuggestorStory.MentionStory.Enabled | frontend/apps/app/components/SessionDetailPage/components/Chat/components/ChatInput/components/MentionSuggestor/MentionSuggestor.stories.tsx:167 | the `enabled` prop is the same visibility test with `@` |
| MentionSuggestorStory.MentionStory.OnChange | frontend/apps/app/components/SessionDetailPage/components/Chat/components/ChatInput/components/MentionSuggestor/MentionSuggestor.stories.tsx:149-152 | a change stores the new text and cursor |
| MentionSuggestorStory.MentionStory.OnClick | frontend/apps/app/components/SessionDetailPage/components/Chat/components/ChatInput/components/MentionSuggestor/MentionSuggestor.stories.tsx:153-155 | a click stores only the cursor |
| MentionSuggestorStory.MentionStory.OnKeyDown | frontend/apps/app/components/SessionDetailPage/components/Chat/components/ChatInput/components/MentionSuggestor/MentionSuggestor.stories.tsx:156-159 | the handler sees the cursor held before this keystroke, and the new cursor is stored |
| MentionSuggestorStory.MentionStory.OnSelect | frontend/apps/app/components/SessionDetailPage/components/Chat/components/ChatInput/components/MentionSuggestor/MentionSuggestor.stories.tsx:168-171 | selecting an item stores its label and nothing else |
| MentionSuggestorStory.MentionStory.SelectedShown | frontend/apps/app/components/SessionDetailPage/components/Chat/components/ChatInput/components/MentionSuggestor/MentionSuggestor.stories.tsx:173 | the "Selected" line appears iff a non-empty label is selected |
| SessionDetailPage.QuickFixComment | frontend/apps/app/components/SessionDetailPage/SessionDetailPageClient.tsx:50-56 | whatever is read back out of a message rebuilds that message |
| SessionDetailPage.QuickFixRoundTrip | frontend/apps/app/components/SessionDetailPage/SessionDetailPageClient.tsx:51-55 | the comment sits verbatim between double quotes after the fixed prefix and before the fixed suffix, and is recovered unchanged |
| SessionDetailPage.QuickFixInjective | frontend/apps/app/components/SessionDetailPage/SessionDetailPageClient.tsx:51-55 | distinct comments give distinct messages |
| SessionDetailPage.QuickFixMessage | frontend/apps/app/components/SessionDetailPage/SessionDetailPageClient.tsx:51-55 | the message is the fixed prefix, the comment verbatim, and the fixed suffix, at exactly those positions |
| SessionDetailPage.Render | frontend/apps/app/components/SessionDetailPage/SessionDetailPageClient.tsx:97-156 | refetching shows "Updating schema..."; otherwise a null schema shows "Failed to load schema"; otherwise the layout, with two columns and the Output iff a version is selected, and never the placeholder |
| SessionDetailPage.LatestVersionKey | frontend/apps/app/components/SessionDetailPage/SessionDetailPageClient.tsx:83 | the latest version is looked up by the building schema's id, or by `''` when there is none |
| SessionDetailPage.RawSchema | frontend/apps/app/components/SessionDetailPage/SessionDetailPageClient.tsx:79 | the payload given to the validator is present iff the building schema is, and is its `schema` |
| SessionDetailPage.SessionDetailState.constructor | frontend/apps/app/components/SessionDetailPage/SessionDetailPageClient.tsx:41-48 | state starts from the initial schema, previous schema and version, with an empty quick-fix message |
| SessionDetailPage.SessionDetailState.HandleQuickFix | frontend/apps/app/components/SessionDetailPage/SessionDetailPageClient.tsx:50-57 | only the stored message changes, and the comment can be read back from it |
| SessionDetailPage.SessionDetailState.HandleChangeCurrentVersion | frontend/apps/app/components/SessionDetailPage/SessionDetailPageClient.tsx:59-73 | build and show the schema, derive the previous schema from that same schema and the version id, and select the version last |
| SessionDetailPage.SessionDetailState.RefetchSchemaAndVersion | frontend/apps/app/components/SessionDetailPage/SessionDetailPageClient.tsx:76-93 | the schema is the parse result (null on failure); the latest version is looked up by the building-schema id or `''`; the previous schema is rebuilt iff both are present, else kept |

## Left out

- HTTP, GitHub and model I/O: `fetch`, the Octokit requests, the `createAppAuth` token exchange and `req.json()` are function parameters or input variants. The LangChain chain (`PromptTemplate`, `ChatOpenAI` and its `temperature: 0.7`, `HttpResponseOutputParser`) is one function from the prompt to a chunk stream or a failure.
- The `Accept` header of the files fetch and the JSON encoding of the answers are not modelled; the answers are datatypes.
- `parseInt` of the app and installation ids: the ids are passed to the exchange as the configured strings, since they decide nothing here.
- PrCommentRoute.Post: a payload that does not have the declared shape (no `record`) is not modelled; destructuring it would throw a `TypeError` whose message the handler would report.
- Console logging in both routes and in the review window has no effect on behaviour.
- React machinery: `useState` batching, `useTransition` scheduling, the scroll-to-bottom effect, focus handling, `querySelector` and `dispatchEvent`. Each handler's updates are applied in order, the suggestion list's presence is a flag, and the dispatched event is the handler's result.
- `TextDecoder`: chunks are already-decoded strings.
- MentionSuggestorStory.SuggestionsVisible and MentionSuggestorStory.HandleSuggestionKeyDown: the trigger is a single character that is not an ASCII letter or digit. For such a character, `\` followed by the character matches the character itself. The stories only use `@`.
- ReviewRoute.FillSlot: the prompt is proved equal to the template with its slot filled, for any template head without `{`. That the review template's own head has no `{` is not proved character by character. `Prompt` is written as head, patch and tail directly.
- ReviewRoute.CanonicalFilesUrl: stated only for an owner and repository without `/` and other than `pull`. If either is `pull`, the first `/pull/` is in the owner or repository segment, and the rewritten URL is not the files endpoint.
- The schema services (`buildCurrentSchema`, `buildPrevSchema`, `getLatestVersion`, `getBuildingSchema`) and valibot's `safeParse` are not part of this model. They are function parameters: the first returns a schema or null, and the validator maps an optional raw payload to an optional schema. A service that rejects is not modelled; it would end the routine after the updates made so far.
- JsSemantics.SliceTo and MentionSuggestorStory.SuggestionsVisible: Dafny strings are sequences of code points, while `selectionStart` and `slice` count UTF-16 code units. For text with characters outside the Basic Multilingual Plane (an emoji, say), the model's `SliceTo` of a cursor position can take more of the text than JavaScript does. Both are therefore exact only for text made of Basic Multilingual Plane characters; example: in `"😀@a"` with the cursor at JavaScript index 2, JavaScript tests `"😀"` and the model tests `"😀@"`.
- SessionDetailPage.SessionDetailState.HandleChangeCurrentVersion and SessionDetailPage.SessionDetailState.RefetchSchemaAndVersion: each routine is modelled as running to completion on its own. In the page both are asynchronous and can interleave. A realtime refetch can land between a version switch's `setCurrentSchema` and `setPrevSchema`, leaving a previous schema built from another schema. `PrevFromShownSchema` holds for one routine's own log only.
- JsSemantics.ReplaceFirst: the `$` substitution patterns of `replace` (`$&`, `$$`, ...) are not modelled; both replacement texts used contain no `$`.
- The chat column, the timeline items and `convertTimelineItemToTimelineItemEntry` are not part of this model. Neither is the realtime subscription that triggers the refetch. `isGenerating` is the constant false.
