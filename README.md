# hubot-googledrive-search, modelled in Dafny

A model of the deterministic core of the Hubot plugin `hubot-googledrive-search`
(`src/hubot-googledrive-search.js`), which lets a chat user search a Google Drive
account. The plugin is glue around the `hubot-google-auth` library and the Google
Drive v2 client; four pieces of its own logic are modelled and proved here:

- **Query construction** (`DriveQuery`): the `drive search title=<t> contains=<c>`
  handler turns its two optional match groups into a Drive v2 search expression,
  or refuses with "Must provide either a title or contains parameter to search."
  A JavaScript falsy group (undefined or empty) is `None` (`Wrappers.Truthy`).
  Its partner is a parser, `ParseQuery`, and the two are proved inverse on
  quote-free terms in both directions.
- **Response normalisation** (`DriveResponse`): a `files.list` reply of kind
  `drive#file` becomes the one-element list of that file, one of kind
  `drive#fileList` its `items`; any other kind, or a missing or empty list, is the
  "Drive Search Error: …" failure, so every success is non-empty.
- **Result formatting** (`DriveFormat`): `formatSearchRes` is a method with a
  loop, proved equal to the specification function `Formatted`; its partner reads
  the text back as lines and proves that, when no shown title or link itself holds
  a newline, it is exactly min(5, n) numbered blocks, title line then link line,
  in input order. Block numbers are decimal numerals proved to denote the number.
- **The search gate** (`DriveSearch`): `search` decides between the
  authorisation instructions (no stored refresh token), the instructions with the
  validation error (token validation failed), the "Drive Api Error: …" message
  (the list call failed) and the normalised files. The library and the Drive client
  are not modelled: their answers are parameters, and each run returns the trace
  of validation and list calls it made, so "no list call happens" is a statement
  about that trace (`getTokens` and `generateAuthUrl` run on every search and are
  not recorded). `SearchTitleContains` composes the query builder, the gate and
  the reply text of the title/contains handler.

Three points about the code; the model follows the code:

- The documentation and the code differ here: the header comment (lines 19-21)
  documents `drive search query=<query-string>`, but group 1 of `/drive search query=(.)+/` (line 150) captures only the last
  character of the query, so that handler is left out rather than modelled as
  passing its text through.
- `search` checks only `tokens.refresh_token` (line 52) before calling the
  library's `validateToken`; whether the access token has expired is the library's
  concern and is not modelled.
- A validation error is reported as `{err, msg: authMsg}` (lines 64-67): the
  library's error together with the authorisation instructions.

## Model

| member | source | states |
|---|---|---|
| `DriveQuery.BuildQuery` | src/hubot-googledrive-search.js:169-182 | it fails, with the "Must provide either a title or contains parameter to search." message, exactly when both terms are falsy; with both present the query is `title contains '<t>' and fullText contains '<c>'`, with only one it is `title contains '<t>'` or `fullText contains '<c>'` |
| `DriveQuery.BuildQueryJoinsSides` | src/hubot-googledrive-search.js:171-181 | the two-term query is the title-only query and the contains-only query joined by " and " |
| `DriveQuery.ParseBuiltQuery` | src/hubot-googledrive-search.js:169-182 | every query built from quote-free terms parses back to exactly the terms that counted as present |
| `DriveQuery.BuildParsedQuery` | src/hubot-googledrive-search.js:169-182 | every string that parses is exactly the query built from the parsed terms, which are non-empty and quote-free, so the three query shapes are all the builder makes |
| `DriveQuery.UnescapedQuoteCollision` | src/hubot-googledrive-search.js:171-173 | terms are spliced in without escaping: a title ending in `' and fullText contains '<c>` builds the same query as that title's head plus the contains term `<c>` |
| `DriveResponse.NormaliseResponse` | src/hubot-googledrive-search.js:82-97 | a `drive#file` reply gives `[reply]`; a `drive#fileList` reply succeeds exactly when its items are present and non-empty, and then gives them unchanged; any other kind fails; every failure is the "Drive Search Error" message and every success is non-empty |
| `DriveFormat.Decimal` | src/hubot-googledrive-search.js:114 | the block number is written as a non-empty string of decimal digits; a number below ten is its single digit |
| `DriveFormat.DecimalValue` | src/hubot-googledrive-search.js:114 | the digits written for a block number denote exactly that number |
| `DriveFormat.FormatSearchRes` | src/hubot-googledrive-search.js:110-118 | the loop's result equals the specification `Formatted(results)`: the blocks of the first min(5, n) results |
| `DriveFormat.FormattedLines` | src/hubot-googledrive-search.js:111-117 | when no shown title or link holds a newline, the text has exactly 2·min(5, n) lines; line 2i is `<i+1>.) <title> ` and line 2i+1 the link of result i, in input order |
| `DriveFormat.FormattedDropsTail` | src/hubot-googledrive-search.js:113 | results after the fifth never change the text |
| `DriveFormat.FormattedEmptyIff` | src/hubot-googledrive-search.js:111-117 | the text is empty exactly when there are no results |
| `DriveSearch.Search` | src/hubot-googledrive-search.js:44-103 | no refresh token: no validation or list call, outcome `{err: null, msg: auth instructions}`; validation error: only the validation call, outcome that error with the instructions; otherwise validation then one list call with the query, and the outcome is the "Drive Api Error" message with the client's error, or the normalised reply |
| `DriveSearch.FoundOnlyAfterListing` | src/hubot-googledrive-search.js:71-99 | files are delivered only after both calls were made, are exactly the normalised reply and are never empty |
| `DriveSearch.AuthMessageIffUnauthorised` | src/hubot-googledrive-search.js:46-69 | the outcome is the authorisation instructions exactly when no refresh token is stored or validation failed |
| `DriveSearch.Reply` | src/hubot-googledrive-search.js:184-191 | an error outcome sends its `msg`; a file list sends `formatSearchRes` of it, which is non-empty for a non-empty list |
| `DriveSearch.SearchTitleContains` | src/hubot-googledrive-search.js:168-192 | with neither term the handler replies with the missing-terms message and calls nothing; once a term is present it makes no call without a stored refresh token, only the validation call when validation fails, and otherwise the validation call then the list call carrying the built query; once a term is present the reply is the authorisation instructions (no token, or validation failed), the "Drive Api Error" message (list call failed), the "Drive Search Error" message (reply normalises to nothing) or the non-empty formatted files |
| `DriveSearch.SentQueryReadsBack` | src/hubot-googledrive-search.js:169-184 | the query the handler sends to Drive parses back to the user's quote-free terms |
| `DriveSearch.UnauthorisedSearchCallsNothing` | src/hubot-googledrive-search.js:52-58 | with no refresh token stored the handler sends the authorisation instructions and issues neither the validation nor the list call |
| `DriveSearch.BudgetQueryScenario` | src/hubot-googledrive-search.js:169-184 | `title=Budget contains=2024` with a valid token lists files with exactly `title contains 'Budget' and fullText contains '2024'` |

## Left out

- `HubotGoogleAuth` (`getTokens`, `generateAuthUrl`, `validateToken`, `setCode`): an external library; only its answers appear, as parameters of `Search` (the stored refresh token, the authorisation URL, the validation error).
- The Drive client's `files.list` and all network I/O: its answer is the `ListReply` parameter.
- The `drive search query=` handler: its pattern's group 1 captures only the last character of the query, and regular-expression matching is not modelled.
- The `drive set code` and `drive tokens` handlers: they only forward to the library or echo its state.
- `robot.respond` pattern dispatch, `msg.send`, `console.log`, the environment-variable configuration and the construction of the auth object: framework plumbing. The handler's reply is returned as a string instead of sent.
- Callbacks and asynchrony: every step is a sequential function.
- JavaScript values other than strings: a `kind` that is not a string, an `items` that is not an array, and a missing title or link rendered as "null" are not modelled; a missing field is `None` and renders as "undefined".
- A null or missing reply from a list call that reports no error: reading `resp.kind` (line 83) would throw; the model's reply is always an object.
- A null entry in `items`: reading `results[i].title` (line 114) would throw; the model's entries are always file objects.
