# mcp-gh-pr-mini core, modelled in Dafny

mcp-gh-pr-mini is an MCP server that gives an assistant a few GitHub pull-request
tools:
- create, update and list pull requests;
- read a diff and request reviewers;
- list the files with the positions where a review comment may go;
- add conversation and review comments, and read comments back.

This project models the server's core:

- **Credentials** (`Auth`, `PatClient`, `CliClient`). The server finds its credentials in one of two ways:
  - a personal access token from `GITHUB_PERSONAL_ACCESS_TOKEN`, checked with `GET /user`;
  - the `gh` command-line tool, checked with `gh auth status`.

  The token is tried first. `GitHubAuth` is a class that holds the chosen client and its configuration, and `Initialize` updates them in place.
- **The API layer** (`Api`):
  - `ensureAuthenticated`, which keeps a client that still passes its self-check and otherwise re-initialises;
  - the request planner: `fetch` with merged headers, or `gh api` with the body on standard input;
  - response parsing and the two error formats;
  - the diff request, which has its own media type and its own CLI invocation;
  - one endpoint per API operation.
- **The text helpers** (`Helpers`):
  - the comment-position indexer over a unified diff;
  - the file-change enrichment;
  - the pull-request, comment and file-change formatters;
  - the error message builder.
- **The tools** (`BaseTool`, `PrTools`, `CommentTools`):
  - each tool's argument checks and the API calls it makes, in order;
  - the text it answers with;
  - how a thrown error becomes an error response.

The outside world is an oracle:
- `Types.Network` says how GitHub answers an HTTPS request and how a run of `gh` ends.
- `BaseTool.Service` says how the API layer answers each `Api.ApiCall`.

Every tool returns a `BaseTool.Run`, which pairs its `ToolResult` with the list of API calls it made. So "this argument check makes no request" and "the review comment is pinned to the head commit" are theorems about the model.

JavaScript details that decide behaviour are written out:
- truthiness (`Json.TruthyValue`, as in `options.body ? … : undefined`);
- the `TypeError` a property read on `null` or `undefined` throws (`Json.Prop`);
- the rendering of a value inside a template literal (`Json.Display`);
- `String.prototype.trim` (`Strings.Trim`);
- `split('\n')` and `join` (`Strings.Split`, `Strings.Join`);
- `||` defaults (`Api.MethodOrGet`, `PrTools.PerPage`).

Where `github-api.ts` and the tools call through `await`, the model threads a `Result`. `Err(m)` is a rejected promise whose `Error` has message `m`.

On the CLI path, a failing `gh api` run is reported with the prefix `GitHub CLI API request failed: ` twice. `apiRequest` rejects with `GitHub CLI API request failed: <stderr>`, and `requestViaCli` wraps that error as `GitHub CLI API request failed: Error: …`. `Api.InterpretCli` models this doubled message as written.

`src/api/github-api.ts` has no `updatePullRequest`, although `src/tools/pr-tools.ts` calls it. The endpoint modelled for it (`PATCH /repos/{owner}/{repo}/pulls/{n}`) is the one in the compiled `build/api/github-api.js`.

## Model

| member | source | states |
|---|---|---|
| Types.CommonHeaders | src/auth/pat-client.ts:46-49 | exactly the four headers: Accept is the GitHub v3 JSON type, Content-Type is `application/json`, User-Agent is `mcp-gh-pr-mini/1.0` and the API version is `2022-11-28`; no Authorization |
| PatClient.AuthHeaders | src/auth/pat-client.ts:43-51 | five headers: the common four plus `Authorization: Bearer <token>` |
| PatClient.UserRequest | src/auth/pat-client.ts:22-24 | the self-check is a body-less `GET https://api.github.com/user` carrying the token's headers |
| PatClient.IsAuthenticated | src/auth/pat-client.ts:18-38 | true exactly when the fetch resolved with a 2xx status and a body that parses to a non-null value; every failure is false, never a throw |
| PatClient.GetUserInfo | src/auth/pat-client.ts:56-71 | a rejected fetch propagates; a non-2xx status gives `Failed to get user info: <status> <statusText>`; a 2xx body that does not parse passes the parse error through; a `null` body throws reading `login`; success implies a 2xx, parsable body whose `login` is returned |
| PatClient.SelfCheckMeansUserInfo | src/auth/pat-client.ts:18-71 | a token that passes `isAuthenticated` also yields user info from the same answer |
| CliClient.ExecuteCommand | build/auth/cli-client.js:62-96 | success iff the process exited with code 0; stdout and stderr are trimmed; a spawn error gives empty stdout and the error's message as stderr |
| CliClient.ParseUserInfo | build/auth/cli-client.js:50-56 | succeeds iff the output parses to a non-null value, giving its `login`; a parse failure gives `Failed to parse user info from GitHub CLI: SyntaxError: <message>`, a null value the same prefix with the TypeError reading `login` |
| CliClient.IsAuthenticated | build/auth/cli-client.js:10-28 | true iff `gh auth status` exits with code 0 |
| CliClient.AuthHeaders | build/auth/cli-client.js:33-40 | the four common headers and no Authorization |
| CliClient.GetUserInfo | build/auth/cli-client.js:44-58 | a failed `gh api user` gives `Failed to get user info via GitHub CLI: <stderr>`; a successful run settles as `ParseUserInfo` of its trimmed output; success implies the run succeeded |
| CliClient.ApiRequestArgs | build/auth/cli-client.js:101-104 | `api <endpoint> --method <METHOD upper-cased>`, followed by `--input -` exactly when there is a truthy body |
| CliClient.BuildApiRequestArgs | build/auth/cli-client.js:101-104 | the argument list built by pushing onto the array equals `ApiRequestArgs` |
| CliClient.ApiRequestCall | build/auth/cli-client.js:100-140 | one `gh` run with those arguments; the body goes to standard input exactly when it is truthy |
| CliClient.ApiRequestResult | build/auth/cli-client.js:118-134 | succeeds iff exit 0 with empty or parsable output; exit 0 with empty output gives null, with parsable output the parsed value, with unparsable output `Failed to parse GitHub CLI response: SyntaxError: <message>`; a non-zero exit gives `GitHub CLI API request failed: <stderr>`; a spawn error gives `GitHub CLI process error: <message>` |
| Auth.ConfigFor | src/auth/github-auth.ts:40-41 | the configuration records the client's method, and has a token exactly for the PAT client, namely its token |
| Auth.SelfCheckCall | src/auth/github-auth.ts:92-97 | the PAT client checks with `GET /user`, the CLI client with `gh auth status` |
| Auth.Resolve | src/auth/github-auth.ts:29-67 | PAT iff a non-empty token passes its check; otherwise CLI iff `gh` passes; otherwise nothing (three iffs) |
| Auth.ProbesMade | src/auth/github-auth.ts:34-56 | the token is probed iff it is non-empty, and first; `gh` is probed iff there is no token or the token failed, and last; each probe at most once |
| Auth.GitHubAuth.constructor | src/auth/github-auth.ts:16-24 | a new instance holds no client and no configuration |
| Auth.GitHubAuth.Initialize | src/auth/github-auth.ts:29-67 | sends exactly `ProbesMade`; succeeds iff `Resolve` finds a client, which is then held with its configuration; otherwise throws the no-authentication message and leaves the state unchanged |
| Auth.GitHubAuth.GetClient | src/auth/github-auth.ts:72-77 | the held client, or the not-initialised error iff there is none |
| Auth.GitHubAuth.GetConfig | src/auth/github-auth.ts:82-87 | the held configuration, or the not-initialised error iff there is none |
| Auth.GitHubAuth.IsAuthenticated | src/auth/github-auth.ts:92-97 | false with no client; otherwise the held client's self-check |
| Auth.GitHubAuth.GetAuthHeaders | src/auth/github-auth.ts:102-105 | the held client's headers (bearer for PAT, none for CLI); the not-initialised error with no client |
| Auth.GitHubAuth.GetUserInfo | src/auth/github-auth.ts:110-113 | delegates to the held client's `getUserInfo` over its own transport; the not-initialised error with no client |
| Auth.ResolvedClientPassesSelfCheck | src/auth/github-auth.ts:29-67 | a client chosen by `initialize` passes its own `isAuthenticated` against the same world |
| Api.FetchUrl | src/api/github-api.ts:44 | an endpoint starting with `http` is used as is; anything else is appended to `https://api.github.com` |
| Api.CliEndpoint | src/api/github-api.ts:74-75 | a leading `https://api.github.com` is removed (base + result = endpoint), anything else is untouched, and the result is never longer |
| Api.MethodOrGet | src/api/github-api.ts:53 | never empty; a given non-empty method is kept, otherwise GET |
| Api.MergeHeaders | src/api/github-api.ts:48 | the keys are the union; an override wins; an auth header not overridden is kept |
| Api.Plan | src/api/github-api.ts:27-85 | CLI configuration iff a `gh api` run, built by `apiRequest` from the method and the stripped endpoint; otherwise a fetch of `FetchUrl` with the merged headers and a body exactly when the body is truthy |
| Api.ParseResponseBody | src/api/github-api.ts:90-98 | JSON-parsed iff the content type contains `application/json`, otherwise the raw text |
| Api.CreateApiError | src/api/github-api.ts:103-115 | `GitHub API error! Status: <status>, Message: ` followed by the body itself when it is a string, otherwise its JSON text |
| Api.Interpret | src/api/github-api.ts:43-65 | succeeds iff the fetch resolved with a 2xx status and a parsable body, giving that body; a non-2xx status is always an error, and with a parsable body it is `CreateApiError` |
| Api.NotFoundMessage | src/api/github-api.ts:103-115 | the API error for a 404 with the text body `Not Found` reads `GitHub API error! Status: 404, Message: Not Found` |
| Api.NotFoundIsAnError | src/api/github-api.ts:58-62 | a 404 with a text body `Not Found` rejects with `GitHub API error! Status: 404, Message: Not Found` |
| Api.InterpretCli | src/api/github-api.ts:79-84 | success passes through; every failure is wrapped as `GitHub CLI API request failed: Error: <message>`, which for a non-zero exit doubles the prefix |
| Api.Endpoint | src/api/github-api.ts:120-239 | a method and a body are given exactly for the mutating operations; the method and path of each operation |
| Api.EndpointUnderRepo | src/api/github-api.ts:120-239 | every operation's path (the diff aside, which has its own request) lies under `/repos/{owner}/{repo}/` |
| Api.EndpointsAreRelative | src/api/github-api.ts:44-75 | every operation path is relative, so the fetch goes to the base URL plus the path and `gh` gets the path unchanged |
| Api.DiffPlan | src/api/github-api.ts:149-185 | `gh api <pull path> --header Accept: …diff` on CLI; otherwise a GET of the pull URL with the auth headers and `Accept` replaced by the diff media type |
| Api.InterpretDiffCli | src/api/github-api.ts:155-167 | succeeds iff `gh` exits 0, with the trimmed output; otherwise `Failed to get PR diff via CLI: <stderr>` |
| Api.InterpretDiffFetch | src/api/github-api.ts:168-184 | a 2xx answer gives the raw body text; a non-2xx answer gives the API error built from the body text |
| Api.Authenticated | src/api/github-api.ts:18-22 | a held client whose self-check passes is kept; otherwise the result of re-running the resolution |
| Api.AuthCalls | src/api/github-api.ts:18-22 | a passing held client sends only its self-check; no client sends exactly the initialisation probes; a held client that fails sends its self-check followed by those probes |
| Api.AuthenticationIsStable | src/api/github-api.ts:18-22 | after a successful `ensureAuthenticated`, a second one keeps the same client and sends only one self-check |
| Api.EnsureAuthenticated | src/api/github-api.ts:18-22 | sends `AuthCalls`; succeeds iff `Authenticated` finds a client, which the auth object then holds; on failure throws the no-authentication message and leaves the auth object unchanged |
| Api.ClientHeaders | src/auth/github-auth.ts:102-105 | the PAT client's bearer headers or the CLI client's plain headers |
| Api.Request | src/api/github-api.ts:27-38 | with no usable client, the no-authentication error with the held client and configuration unchanged; otherwise the authentication calls followed by exactly one transport call (`Plan` for the held configuration), whose answer decides the result |
| Api.FetchPullRequestDiff | src/api/github-api.ts:149-185 | the same as `Request` (including the unchanged state when no client is usable), using the diff plan and the diff interpreters |
| BaseTool.CreateSuccessResponse | src/tools/base-tool.ts:24-33 | one text item holding the message, not marked as an error |
| BaseTool.CreateErrorResponse | src/tools/base-tool.ts:38-50 | one text item holding `createErrorMessage(operation, error)`, with `isError` left unset |
| BaseTool.ExecuteOperation | src/tools/base-tool.ts:55-67 | a successful operation's response is returned unchanged; a thrown error becomes one item `Failed to <operation>: <message>` |
| BaseTool.Field | src/tools/pr-tools.ts:27-29 | reading a field of null throws the property-read TypeError, and only null does; on an object it renders the field's value |
| BaseTool.AsList | src/utils/helpers.ts:58 | `.map` succeeds exactly on an array, with its items; on null it throws reading the first property |
| Helpers.AddedLineByPrefixes | src/utils/helpers.ts:27 | an added line is one that starts with `+` and not with `+++` |
| Helpers.AddedPositionsMembership | src/utils/helpers.ts:13-33 | `k` is reported iff line `k` (1-based) exists and is an added line |
| Helpers.AddedPositionsShape | src/utils/helpers.ts:13-33 | the positions are strictly increasing, within `[1, number of lines]`, and no more numerous than the lines |
| Wrappers.MapResult | src/utils/helpers.ts:58-67 | `.map` with a callback that may throw: on success, one result per item |
| Wrappers.MapResultEach | src/utils/helpers.ts:58-67 | the map succeeds iff the callback succeeds on every item, giving result `i` for item `i`; otherwise it throws the error of the first item that fails |
| Helpers.CalculateCommentPositions | src/utils/helpers.ts:13-33 | the counting loop yields exactly the added-line ordinals; nothing for an absent or empty patch; strictly increasing and in range; membership iff the line is an added line |
| Helpers.PositionsFromAgrees | src/utils/helpers.ts:20-30 | counting front to back from a first ordinal agrees with the ordinals shifted by that start |
| Helpers.AddedLineIgnoresCarriageReturn | tests/comment-position.test.ts:161-166 | a trailing `\r` never changes whether a line is an added line |
| Helpers.SimplePatchPositions | tests/comment-position.test.ts:170-183 | the sample hunk with three additions yields positions 4, 5 and 6 |
| Helpers.HeaderPatchPositions | tests/comment-position.test.ts:103-115 | file headers are counted but not reported: `+++ b/test.txt` is skipped and the added line is at 7 |
| Helpers.EdgePatchPositions | tests/comment-position.test.ts:152-166 | a line `++` is commentable (position 3); CRLF line ends give the same position 3 |
| Helpers.EnrichFileChanges | src/utils/helpers.ts:38-48 | same files in the same order with their six fields copied, each with the comment positions of its own patch |
| Helpers.PositionsText | src/utils/helpers.ts:129 | `None` exactly when there are no positions |
| Helpers.PatchSection | src/utils/helpers.ts:130 | the patch part is empty exactly when the patch is absent or empty |
| Helpers.FileBlockLines | src/utils/helpers.ts:124-132 | six lines, from `File: <name>` to `---`; `Comment Positions: None` iff there are no positions; an empty fifth line iff there is no patch |
| Helpers.FormatFileChanges | src/utils/helpers.ts:123-136 | only the `Changes in PR #<n>:` header and blank line for no files; the header followed by the file's block for one file |
| Helpers.FormatFileChangesAppend | src/utils/helpers.ts:123-136 | each further file is appended after a blank line |
| Helpers.CreateErrorMessage | src/utils/helpers.ts:141-144 | `Failed to <operation>: ` followed by the Error's message, or the value's string form for a non-Error |
| Helpers.IssueCommentText | src/utils/helpers.ts:89-97 | rendering succeeds iff `comment.user.login` can be read; otherwise it throws that read's error |
| Helpers.ReviewCommentText | src/utils/helpers.ts:104-113 | rendering succeeds iff `comment.user.login` can be read; otherwise it throws that read's error |
| Helpers.CommentTexts | src/utils/helpers.ts:89-113 | a successful map renders one text per comment |
| Helpers.CommentTextsEach | src/utils/helpers.ts:89-113 | the map succeeds iff every comment renders, and then text `i` is comment `i`'s rendering |
| Helpers.FormatComments | src/utils/helpers.ts:75-117 | the no-comments line iff both lists are empty; otherwise starts with the header; fails iff one of the lists fails to render, with the conversation list's error reported first |
| Helpers.FormatCommentsSections | src/utils/helpers.ts:84-115 | when at least one list is non-empty and both render, the text is the header, then the conversation section if there are issue comments, then the review section if there are review comments |
| Helpers.BuildComments | src/utils/helpers.ts:75-117 | appending the sections step by step gives exactly `FormatComments` |
| Helpers.ReviewerCount | src/utils/helpers.ts:63 | for an array of requested reviewers, its length; 0 when the field is absent or null |
| Helpers.PullRequestText | src/utils/helpers.ts:58-67 | a null entry throws reading `number`; otherwise rendering succeeds iff `user.login`, `head.label` and `base.label` can all be read, and the first of them that fails gives the error |
| Helpers.PullRequestTexts | src/utils/helpers.ts:58-67 | a successful map renders one text per pull request |
| Helpers.PullRequestTextsEach | src/utils/helpers.ts:58-67 | the map succeeds iff every pull request renders, and then text `i` is pull request `i`'s rendering |
| Helpers.FormatPullRequestList | src/utils/helpers.ts:53-70 | the "no open pull requests" line for an empty list; otherwise the header, and failure iff some pull request fails to render |
| Json.Prop | src/utils/helpers.ts:61 | a property read throws iff the holder is null or undefined; on an object it is the field, otherwise undefined |
| Json.Path | src/utils/helpers.ts:61-62 | `v.k1.k2` is the second read applied to the first read's value, and the first read's error when that throws; it succeeds iff `v` is an object whose `k1` is present and not null |
| Json.DisplayOfScalars | src/utils/helpers.ts:60 | a template literal shows a string verbatim, a number in decimal and undefined as `undefined` |
| Strings.TrimEmptyIffBlank | src/tools/pr-tools.ts:106 | `trim()` is empty exactly when the text is all whitespace |
| Strings.SplitJoin | src/utils/helpers.ts:20 | splitting the `\n`-join of line-feed-free lines gives the lines back |
| Strings.JoinSplit | src/utils/helpers.ts:20 | joining the `\n`-split of a text with `\n` gives the text back |
| PrTools.Respond | src/tools/base-tool.ts:55-67 | a text becomes a success response; a failure becomes an error response for the operation |
| PrTools.CreatePayload | src/tools/pr-tools.ts:20-25 | an object with exactly the keys title, body, head, base in this order, holding the given values |
| PrTools.CreatedText | src/tools/pr-tools.ts:27-29 | the success text with the new number and URL; a null answer throws reading `number` |
| PrTools.CreatePullRequest | src/tools/pr-tools.ts:11-31 | exactly one POST with the payload; its failure becomes the error response, otherwise the created text |
| PrTools.FieldIf | src/tools/pr-tools.ts:47-51 | a field is added exactly when its parameter is given |
| PrTools.UpdatableKey | src/tools/pr-tools.ts:47-51 | the `n`-th field assigned has rank `n` in the order title, body, state, base |
| PrTools.FieldsUpToShape | src/tools/pr-tools.ts:47-51 | the fields gathered from the first `n` keys are in source order, each with rank below `n` and carrying its requested value |
| PrTools.FieldsUpToCovers | src/tools/pr-tools.ts:47-51 | every requested key among the first `n` has been gathered |
| PrTools.FieldsUpToKeys | src/tools/pr-tools.ts:47-51 | a key is in the full payload iff it is one of the four and its parameter is given |
| PrTools.FieldsUpToEmpty | src/tools/pr-tools.ts:47-51 | the full payload is empty iff no parameter is given |
| PrTools.UpdateFields | src/tools/pr-tools.ts:47-51 | keys in the order title, body, state, base; each key present iff its parameter is given; empty iff none is given |
| PrTools.BuildUpdateData | src/tools/pr-tools.ts:47-51 | filling the object field by field gives exactly `UpdateFields` |
| PrTools.UpdatedText | src/tools/pr-tools.ts:64-67 | the updated text names the number, the updated keys and the URL; a null answer throws reading `number` |
| PrTools.UpdatePullRequest | src/tools/pr-tools.ts:36-69 | no request iff no field is given, answering the no-fields message; otherwise exactly one PATCH carrying the given fields |
| PrTools.ClosePayload | src/tools/pr-tools.ts:47-51 | with only `state: closed` given, the payload is that single field |
| PrTools.CloseOnlySendsState | src/tools/pr-tools.ts:47-67 | closing a pull request sends only `state: closed` and reports `state` as updated |
| PrTools.AllFieldsListedInOrder | src/tools/pr-tools.ts:64-67 | with all four fields given, the report lists `title, body, state, base` |
| PrTools.PerPage | src/tools/pr-tools.ts:83 | `limit || 10`: 10 when the limit is absent or 0, otherwise the limit; never 0 |
| PrTools.ListOpenPullRequests | src/tools/pr-tools.ts:74-89 | one list request with that page size; an empty answer gives the "no open pull requests" text; a `null` answer is the error response for the TypeError reading `length`, any other non-array the error response for its failed read; an array answer is formatted |
| PrTools.DiffText | src/tools/pr-tools.ts:117-119 | the diff text with the title in a fenced block; a null pull request throws reading `title` |
| PrTools.GetPullRequestDiff | src/tools/pr-tools.ts:94-121 | the diff is fetched first; a blank diff answers "No changes found" with no second request; otherwise the pull request is fetched for its title |
| PrTools.ReviewerNoun | src/tools/pr-tools.ts:145 | plural iff more than one reviewer |
| PrTools.RequestReviewers | src/tools/pr-tools.ts:126-148 | no request iff the list is empty, with the "no reviewers" text; otherwise exactly one request for those reviewers |
| PrTools.DecodeFile | src/tools/pr-tools.ts:159-165 | a null file record throws reading `filename`; only an object record decodes |
| PrTools.DecodedFileMatchesRecord | src/tools/pr-tools.ts:159-165 | a decoded file carries the record's filename, status, three counts and patch (absent only when the record has none or null) |
| PrTools.DecodeFiles | src/tools/pr-tools.ts:159-165 | a successful decode gives one file per record |
| PrTools.DecodeFilesEach | src/tools/pr-tools.ts:159-165 | decoding succeeds iff every record decodes, and then file `i` is record `i` decoded |
| PrTools.GetChangesForCommenting | src/tools/pr-tools.ts:153-170 | one files request; a `null` answer is the error response for the TypeError reading `map`, any other non-array the error response for `files.map is not a function`; an array with an unreadable record is the error response for the first such record's error; an array of decodable records is answered with the formatted, enriched changes |
| CommentTools.CommentAddedText | src/tools/comment-tools.ts:25-27 | the success text names the pull request and the comment URL; a null answer throws reading `html_url` |
| CommentTools.AddComment | src/tools/comment-tools.ts:11-29 | exactly one comment request, whose body is the AI identifier followed by the given body unchanged |
| CommentTools.ReviewPayload | src/tools/comment-tools.ts:56-61 | keys body, commit_id, path and position in this order (commit_id only when defined); the body carries the AI identifier |
| CommentTools.ReviewCommentAddedText | src/tools/comment-tools.ts:64-66 | the text names the pull request, file, position and URL; a null answer throws reading `html_url` |
| CommentTools.AddReviewComment | src/tools/comment-tools.ts:34-68 | the pull request is fetched first; if that fails, or `head.sha` cannot be read, no comment is posted; otherwise one review comment is posted with that sha |
| CommentTools.FormatCommentAnswers | src/utils/helpers.ts:75-117 | a null conversation answer throws reading `length`; a conversation comment that fails to render is reported whatever the review answer is; only then does a null review answer throw reading `length`; two arrays are formatted by `FormatComments` |
| CommentTools.NullCommentReportedBeforeReviewList | src/utils/helpers.ts:80-91 | conversation answer `[null]` with review answer `null` fails reading `user`, not `length` |
| CommentTools.GetComments | src/tools/comment-tools.ts:73-93 | both comment lists are requested; a failure of the first is reported before the second; two answers are formatted by `FormatCommentAnswers` |

## Left out

- Real I/O is not modelled. `fetch`, `spawn`, the stream events and `process.env` become parameters: `Types.Network` for the transports and the token string for the environment.
- `JSON.parse` and `JSON.stringify` are given as function parameters (`JsonParser`, `JsonPrinter`). Their own behaviour is not modelled.
- `new Date(x).toLocaleString()` depends on the locale and the clock, so it is a parameter (`DateRenderer`).
- `Promise.all` in `getComments` is sequential in the model. Both calls are always recorded, and the issue-comment error is reported when both fail.
- The logger (`build/utils/logger.js`) has no effect on results and is not part of this model.
- `src/index.ts`, `build/index.js` (tool registration and the MCP transport) and the compiled duplicates under `build/` are not part of this model.
- The network oracle answers identical requests identically. A credential that changes between two calls is not modelled.
- `gh`'s output chunks are modelled as the final complete stdout and stderr. The `+=` accumulation of stream chunks is not modelled.
- Strings.ToUpper: only ASCII letters are upper-cased; JavaScript's full Unicode case mapping is not modelled.
- A `gh` process that ends with a `null` exit code (killed by a signal) is not modelled separately from a non-zero exit.
- Numbers are integers; JSON floating-point values are not modelled.
- Helpers.ReviewerCount: `.length` is read only from arrays and strings. Any other value counts as 0, so an object with its own `length` property is not modelled.
- Json.Prop: built-in properties of strings, numbers and arrays (such as `length`) read as undefined.
- BaseTool.AsList: on a non-array, non-null answer it gives the generic error `<name>.map is not a function`. JavaScript gives other results for some values, for example an empty string.
- PrTools.DecodeFile: a record that is not an object, a `filename` or `status` that is missing or not a string, a count that is missing or not a number, and a `patch` that is not a string, `null` or missing are all refused with an "unexpected file record" message. The source instead renders such fields as they are (for example `File: undefined`), throws `patch.split is not a function` for a truthy non-string patch, and reports no positions for a falsy one.
- PrTools.GetChangesForCommenting: answers with an error response for every record `PrTools.DecodeFile` refuses, where the source would format most of them as described on the line above.
- PrTools.RequestReviewers: `reviewers` is always a list; the `!params.reviewers` test for an undefined list is not modelled.
