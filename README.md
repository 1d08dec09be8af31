# chat-ai reply route, modelled in Dafny

The repository is a single Next.js route, `POST /api/chat`, that suggests
three reply candidates to an inbound chat message. It gathers reference text
from `data/learning/*.txt` into one bounded string (`loadLearningData`). It
puts that text and the caller's conversation history into a fixed persona
prompt, sends one request to the Gemini completion service, and returns the
generated text or an error.

The model has four files:

- `wrappers.dfy` (module `Wrappers`): `Option` and `Result`.
- `learning_data.dfy` (module `LearningData`): the directory as a value
  (`Missing`, `Unlistable`, or a `Listing` of entries, each with the outcome
  of reading it). `Trace` is the list of blocks the loop appends, each with
  the accumulated length before its append. `LoadLearningData` is the loop
  itself: a `for` loop with `break` over an accumulator string, proved to
  return `Learned(dir)`, the rendering of `Trace`.
- `learning_data_props.dfy` (module `LearningDataProps`): what the
  aggregation guarantees. Non-`.txt` entries are ignored. Blocks are
  budgeted prefixes in listing order. Nothing is added after the budget is
  reached. A failing read keeps what came before. It also proves the content
  and length bounds and the all-files-fit case.
- `chat_route.dfy` (module `ChatRoute`): the history placeholder, the system
  prompt's two interpolation slots, the API-key guard, the error-message
  construction, and `Post`. `Post` takes the completion service as a
  function parameter and reports the call it made, if any.

A `char` stands for one UTF-16 code unit, the unit JavaScript's `length` and
`slice` count in. This correspondence is abstract. Dafny's `char` is a Unicode
scalar value and is never a lone surrogate, so a `slice` that splits a
surrogate pair cannot be written down with the literal code units. `MAX_SIZE` is 150000.

### The budget is not a cap on the output

The function is described as size-limited (app/src/app/api/chat/route.ts:6),
and `MAX_SIZE` carries the comment "read up to about 150KB" (line 10). Both read
as a cap on the returned text, but the code does not enforce one. Line 18
checks the accumulated length only before a block is appended. Line 29
computes the room before line 31 adds the block's name and its 11 framing
characters. So the last block's name and framing can go past `MAX_SIZE`, while
earlier blocks' names and framing do count against the room left for later
files (`EarlierFramingCounts`).
The model follows the code. It proves that the content characters total at
most `MAX_SIZE`. It proves the output is at most
`MAX_SIZE + 11 + |last included name|`. `FirstFileOverBudget` shows an input
whose output is longer than `MAX_SIZE`.

## Model

| member | source | states |
|---|---|---|
| `LearningData.Truncate` | app/src/app/api/chat/route.ts:29-30 | the kept part is a prefix of the content, as long as the content or the remaining budget, whichever is smaller |
| `LearningData.EndsWithTxtMeaning` | app/src/app/api/chat/route.ts:16 | a name passes the `.endsWith(".txt")` test exactly when some suffix of it is ".txt", and every stem followed by ".txt" passes |
| `LearningData.Block` | app/src/app/api/chat/route.ts:31 | a block is 11 framing characters longer than the name and the kept part together |
| `LearningData.BlockLayout` | app/src/app/api/chat/route.ts:31 | a block is "\n--- ", the name, " ---\n", the kept part, then "\n" |
| `LearningData.Trace` | app/src/app/api/chat/route.ts:15-33 | the walk appends at most one block per entry (what each block holds is stated by the lemmas below) |
| `LearningData.Learned` | app/src/app/api/chat/route.ts:12-39 | a missing directory (`existsSync` false) and one whose listing throws into the catch both give "" |
| `LearningData.LoadLearningData` | app/src/app/api/chat/route.ts:7-40 | the loop, with its early break and the catch of a failing read, returns exactly the rendering of the walk; a missing or unlistable directory gives "" |
| `LearningDataProps.TxtOnly` | app/src/app/api/chat/route.ts:16 | the ".txt" filter is no longer than the listing and keeps only names ending in ".txt" |
| `LearningDataProps.TxtOnlyMembers` | app/src/app/api/chat/route.ts:15-16 | an entry is kept by the filter exactly when it is in the listing and its name ends in ".txt" |
| `LearningDataProps.TxtOnlyConcat` | app/src/app/api/chat/route.ts:15-16 | the filter keeps listing order: filtering a concatenation gives the concatenation of the filtered parts |
| `LearningDataProps.NonTxtIgnored` | app/src/app/api/chat/route.ts:16 | the walk over the listing equals the walk over its ".txt" entries alone, so other entries add nothing and use no budget |
| `LearningDataProps.NonTxtInsertIgnored` | app/src/app/api/chat/route.ts:15-16 | inserting a non-".txt" entry anywhere in the listing leaves the result unchanged |
| `LearningDataProps.SaturatedAppendsNothing` | app/src/app/api/chat/route.ts:18-21 | from an accumulated length of at least `MAX_SIZE`, no entry contributes anything |
| `LearningDataProps.NothingAfterBudget` | app/src/app/api/chat/route.ts:18-21 | once the first k entries have brought the length to `MAX_SIZE`, the rest of the listing, ".txt" or not, adds nothing |
| `LearningDataProps.ReadFailureKeepsEarlier` | app/src/app/api/chat/route.ts:12-39 | a ".txt" entry whose read throws yields exactly what the entries before it produced |
| `LearningDataProps.TraceFollowsListing` | app/src/app/api/chat/route.ts:15-31 | the j-th block belongs to the j-th ".txt" entry; that entry was read; the block was appended below `MAX_SIZE`; its part is the content cut to exactly `MAX_SIZE` minus the length before the append (the whole content when that fits) |
| `LearningDataProps.TraceOffsets` | app/src/app/api/chat/route.ts:29-31 | the first block is appended at the starting length and each later one right after the full length of the previous block |
| `LearningDataProps.OnlyLastTruncated` | app/src/app/api/chat/route.ts:18-31 | every block but the last holds its file's whole content |
| `LearningDataProps.StopsOnlyForACause` | app/src/app/api/chat/route.ts:15-39 | when the walk stops before the k-th ".txt" entry, that entry's read threw or the accumulated length had reached `MAX_SIZE`; no file is dropped otherwise |
| `LearningDataProps.ContentWithinBudget` | app/src/app/api/chat/route.ts:18-30 | the kept content characters never exceed the budget left at the start |
| `LearningDataProps.LengthBound` | app/src/app/api/chat/route.ts:18-31 | the final length is at most `MAX_SIZE` plus 11 plus the length of the last included name |
| `LearningDataProps.LearnedBounds` | app/src/app/api/chat/route.ts:7-40 | for the whole function: content at most `MAX_SIZE`, length at most `MAX_SIZE` plus 11 plus the length of the last included name, and "" without a listing |
| `LearningDataProps.RenderLength` | app/src/app/api/chat/route.ts:31 | the output length is the content characters plus, per block, the name and 11 framing characters |
| `LearningDataProps.AllFitAllIncluded` | app/src/app/api/chat/route.ts:15-33 | when all ".txt" files are readable and their full blocks fit in the budget, the output is every full block in listing order |
| `LearningDataProps.EarlierFramingCounts` | app/src/app/api/chat/route.ts:18-31 | a first file of `MAX_SIZE - 5` characters leaves no room: a second file of up to four characters is skipped although the contents total under `MAX_SIZE` |
| `LearningDataProps.FirstFileOverBudget` | app/src/app/api/chat/route.ts:18-31 | a first ".txt" file at least `MAX_SIZE` long gives one block with its first `MAX_SIZE` characters and nothing else, so the output is longer than `MAX_SIZE` |
| `ChatRoute.HistorySlot` | app/src/app/api/chat/route.ts:101 | an absent or empty history becomes "なし"; any other history appears verbatim; the slot reads "なし" exactly for absent, empty or literally "なし" histories |
| `ChatRoute.SystemPrompt` | app/src/app/api/chat/route.ts:61-102 | the prompt starts with the persona text, holds the reference material right after it, and ends with the history slot and a newline |
| `ChatRoute.PromptDeterminesHistorySlot` | app/src/app/api/chat/route.ts:100-101 | two prompts over the same reference material are equal only when their history slots are |
| `ChatRoute.UserText` | app/src/app/api/chat/route.ts:107 | the second prompt part is the label followed by the message unchanged |
| `ChatRoute.FailureMessage` | app/src/app/api/chat/route.ts:115-119 | the error text is the fixed prefix followed by the thrown value's text unchanged (`ErrorText`: an `Error`'s message, otherwise its `String(...)` text) |
| `ChatRoute.FailureReasonRoundTrip` | app/src/app/api/chat/route.ts:115-119 | stripping the prefix from a failure text gives back the thrown message exactly |
| `ChatRoute.KeyMissingIsNoDownstreamFailure` | app/src/app/api/chat/route.ts:46-121 | the missing-key text never reads as a downstream failure, so the two 500 answers differ in their text |
| `ChatRoute.Post` | app/src/app/api/chat/route.ts:42-123 | a bad body gives 500 with the failure text; a key that fails `Configured` (unset or empty) gives 500 with the fixed text and no service call; otherwise exactly one call with the key, the model name and the composed prompt, answered 200 with the text unchanged or 500 with the failure text; status 200 exactly when the service produced text |

## Left out

- LoadLearningData: the throw that `path.join(process.cwd(), ...)` at line 8 can raise (for example when the working directory has been removed) happens outside the `try` of line 12 and would reach `POST`'s catch, giving 500 with the failure text and no service call. It is not modelled: the loader is taken never to throw, and `Post` always makes its one call once the key is configured.

- The Gemini client (`GoogleGenerativeAI`, `getGenerativeModel`, `generateContent`, `response.text()`) is a foreign network service. It is the `service` parameter of `Post`; a throw anywhere in it is `Rejected`.
- Filesystem calls (`existsSync`, `readdirSync`, `readFileSync`, `path.join`) are replaced by the `Directory` value. Listing order is taken as given, and nothing is assumed about sorting.
- `NextRequest.json()`, `NextResponse.json` and `process.env` are framework and environment plumbing. The parsed body (or the value its parsing threw), the API key and the response status and body are plain values.
- Request fields of JSON types other than string (a numeric or boolean `conversationHistory`, a missing `message`) are not modelled. `conversationHistory` is an optional string and `message` a string.
- The literal persona, character and formatting text of the prompt is stood in for by two opaque constants. Only the positions of the reference material and the history slot are modelled.
- `console.log` and `console.error` diagnostics and `async`/`await` add no behaviour and are left out.
- Reading a file as UTF-8 is not modelled. File content is the sequence of UTF-16 code units that decoding yields.
