# Chat relay and memory archive, modelled in Dafny

This project models two small workflows of a chat-relay service and proves
properties about them.

- **`Server`** (`server.dfy`) models `src/server.js`.
  - `POST /api/chat` is one chat turn. The handler validates the body and logs
    the user message. It starts from the echo reply and may ask the completion
    provider under a 200-token ceiling. A thrown provider call is swallowed.
    The handler then overwrites the daily usage counter when usage was
    reported, logs the assistant message and answers.
  - Two read endpoints work over the messages table: `GET /api/history` and
    `GET /proof/messages`.
  - The store is a `Database` object. The messages table is an append-only
    log whose rows receive increasing creation times. The usage counters are a
    map keyed by (session, day).
  - The handler is a method, `HandleChat`, proved equal to the functional turn
    `ChatTurn`. The lemmas about `ChatTurn` state what a turn promises.
- **`GoogleDrive`** (`google_drive.dfy`) models `src/memory/googleDrive.js`.
  - `upsertMemory` forms the key `session:topic`. It writes the content into
    the `memories` folder, either whole as `key.txt` or as
    `ceil(len/maxBytes)` slices named `key.part<n>.txt`. It records every file
    written in an index document and writes the index back.
  - `createOrUpdate` / `findInFolder` replace a file in place, or create it.
  - `ensureFolders` finds or creates the top folder and its `memories` and
    `snapshots` children.
  - The Drive account is a `Drive` object with four parts: folders in
    creation order, files keyed by (parent, name), the index document, and a
    fresh-id counter. Its methods are proved against value-level functions
    such as `Put`, `FindOrMake`, `ReadIndexSpec` and `UpsertMemorySpec`. The
    chunking loop runs over the plan of files `Plan`.
- **`JsString`** (`js_string.dfy`) models the two pieces of JavaScript string
  behaviour the services rely on. One is `String.prototype.trim`, with
  ECMAScript's whitespace and line-terminator characters. The other is the
  decimal rendering of a number in a template literal.
- **`Wrappers`** (`wrappers.dfy`) holds `Option`, `Result` and `Min`.

Inputs that the code reads from outside are parameters of the model:

- the outcome of each store call: applied, answered with an error value, or thrown;
- the provider: not configured, throws, or returns optional content and optional usage;
- the environment settings;
- today's date, the current time and the expiry time, as opaque strings;
- the memory content, already encoded as UTF-8 bytes.

## Behaviour of the code worth knowing

The model follows the code as written. Five of its consequences are easy to
miss when reading the handlers.

- **Mode after a provider failure.** The mode depends only on whether a
  client exists (`src/server.js:138`). A thrown provider call is caught at
  `src/server.js:123-126`, so it reports `openai` with the echo text
  (`ProviderFailureAbsorbed`).
- **Usage with empty content.** `usage` is set from `r.usage` whenever it is
  present (`src/server.js:107-110`), independently of the content. An empty
  completion with a usage report answers with the echo text, reports the
  usage and updates the counter (`ReplySelection`, `UsageCounterOverwrites`).
- **Store errors.** The results of the two message inserts are never
  inspected (`src/server.js:88`, `src/server.js:130`). Only a thrown exception
  reaches the 500 of `src/server.js:141-143`. An insert that answers with an
  error value leaves no row, and the turn goes on (`UserThenAssistant`,
  `UserInsertFailureStops`).
- **Proof limit.** The limit is `Math.min(parseInt(...), 20)`
  (`src/server.js:61`): it is capped above at 20 and not raised below.
- **Part names of other topics.** A part's file name and index key differ
  from the unsplit name and key of the same memory (`PartName`, `PartKey`),
  but not from those of another topic: an unsplit memory of topic `t.part1`
  is stored as `s:t.part1.txt`, the file name of part 1 of topic `t`, and
  topic `t#1` has the index key `s:t#1` of that same part
  (`src/memory/googleDrive.js:52`, `src/memory/googleDrive.js:61-68`).

## Model

| member | source | states |
|---|---|---|
| JsString.Trim | src/server.js:83 | `trim` removes exactly the leading and the trailing run of whitespace and line terminators. The result is the slice between them. It is empty iff the input is all whitespace. A non-empty result starts and ends with non-whitespace. |
| JsString.TrimIdempotent | src/server.js:106 | Trimming the trimmed completion text again changes nothing. |
| JsString.Decimal | src/memory/googleDrive.js:61 | `${n}` is one or more decimal digits, with no leading zero unless `n` is 0, and its last digit is `n % 10`. |
| JsString.DecimalDenotes | src/memory/googleDrive.js:61-63 | The digits of `${n}`, read most significant first, denote n. |
| JsString.DecimalInjective | src/memory/googleDrive.js:61-63 | Different part numbers render as different digit strings. |
| Server.Coalesce | src/server.js:81 | `a ?? b` is `b` exactly when `a` is null or undefined, and `a` otherwise. The result is nullish only if `b` is. |
| Server.Truthy | src/server.js:82-83 | A truthy value is present and not null. A string is truthy iff it is non-empty, and arrays and objects are always truthy. |
| Server.Inserted | src/server.js:88 | An applied insert appends the row (session, role, text, `db.clock`) and advances the clock. An insert that is not applied leaves the store exactly as it was. Increasing creation times are preserved and the counters are untouched. |
| Server.CounterUpserted | src/server.js:116-120 | An applied upsert makes the (session, day) key hold the new total and adds that key if it was missing. Other keys keep their totals and the messages and clock are unchanged. An upsert that is not applied leaves the store exactly as it was. |
| Server.Database.Insert | src/server.js:130 | The store object changes exactly as `Inserted` says and stays well stamped. The thrown message is returned iff the call threw. |
| Server.Database.UpsertCounter | src/server.js:116-121 | The store object changes exactly as `CounterUpserted` says. |
| Server.MaxTokens | src/server.js:91-103 | `max_tokens` is the configured value capped at 200, and 200 when unset. It never exceeds 200. |
| Server.ModelName | src/server.js:98 | The model is the configured name when it is non-empty, and `gpt-4o-mini` otherwise. It is never empty. |
| Server.CompletionFor | src/server.js:97-105 | The provider request carries the configured model name, the fixed system prompt, the question as given, a token count of at most 200, and temperature 0.7 (as tenths). |
| Server.SessionField | src/server.js:81 | The session is `session_identifier` when that is present and not null, and `session_Identifier` otherwise. |
| Server.ValidateChat | src/server.js:80-85 | The request is accepted iff the coalesced session is truthy and the question is a string with a non-blank trim. Accepted values come from the body. Refusals are 400 with the body echoed, and the session check comes first: with a truthy session and an unusable question the answer is the missing-question refusal. |
| Server.BlankQuestionRejected | src/server.js:83 | A whitespace-only question is refused. |
| Server.EchoReply | src/server.js:92 | The echo reply embeds the raw question verbatim at a fixed position. |
| Server.EchoReplyInjective | src/server.js:92 | Different questions give different echo replies. |
| Server.PickReply | src/server.js:106 | Absent or blank content keeps the fallback. Otherwise the reply is the trimmed content, non-empty with non-whitespace ends. |
| Server.UsageTotal | src/server.js:115 | The total is `tokens_in + tokens_out`, with an absent count contributing 0. |
| Server.ModeOf | src/server.js:138 | The mode is openai iff a provider client exists, and echo iff none does. |
| Server.Respond | src/server.js:129-140 | The assistant insert appends at most one row, keeps stamps increasing and does not alter the provider request. |
| Server.Answer | src/server.js:90-127 | The part of the turn after the user row appends at most one row, keeps stamps increasing and sends at most 200 tokens. |
| Server.ChatTurn | src/server.js:78-145 | A whole turn appends at most two rows to the log, keeps stamps increasing and never asks for more than 200 tokens. |
| Server.HandleChat | src/server.js:78-145 | The handler method leaves the store, the answer and the provider request exactly as `ChatTurn` says, and keeps the store valid. |
| Server.AnswerTurn | src/server.js:92-140 | The echo/provider/counter/assistant steps of the handler match `Answer`. |
| Server.TurnAfterUserRow | src/server.js:87-88 | After validation and a user insert that did not throw, the turn is the answer step on the logged state. |
| Server.ValidationLeavesNoTrace | src/server.js:80-85 | A refused request answers 400 with the body. It leaves the store unchanged and calls no provider. |
| Server.UserInsertFailureStops | src/server.js:141-143 | A throwing user insert answers 500 with its message before the provider is asked, and nothing is written. |
| Server.AnswerShape | src/server.js:92-139 | The answer step fully: the provider request, the 500 on a throwing assistant insert, the reply and usage in the answer, the single assistant row, and the counter change. |
| Server.UserThenAssistant | src/server.js:88-130 | A 200 turn appended the user row (the raw question) and then the assistant row (the reply), each exactly when its insert was applied, both for the request's session, with consecutive times. |
| Server.ExactlyTwoRows | src/server.js:88-130 | With both inserts applied, a valid request appends exactly two rows, user then assistant. |
| Server.ValidTurnReplies | src/server.js:133-140 | A valid request whose inserts do not throw answers 200 for its own session and question. |
| Server.EchoWithoutProvider | src/server.js:92-139 | With no provider the reply is the echo of the raw question and the mode is echo. There is no usage, no request, and no counter change. |
| Server.ProviderFailureAbsorbed | src/server.js:95-138 | A thrown provider call still answers 200 with the echo reply and no usage. The counters are untouched and the mode is openai. |
| Server.ReplySelection | src/server.js:106-110 | A returning provider gives the trimmed content when it is not blank, and the echo otherwise. The mode is openai, and the reported usage is passed through. |
| Server.ModeFollowsConfiguration | src/server.js:138 | The mode is openai iff a provider is configured. |
| Server.TokenCeilingHonoured | src/server.js:95-104 | A request is sent exactly when a valid request meets a configured provider and the user insert did not throw. It carries the capped token count, the model name and the raw question. |
| Server.UsageCounterOverwrites | src/server.js:107-121 | With reported usage and an applied upsert, the (session, today) counter is overwritten with `(in\|\|0)+(out\|\|0)`. It is otherwise unchanged, and the usage is in the answer either way. |
| Server.NoUsageNoCounter | src/server.js:113-122 | Without a usage report the counter table is unchanged. |
| Server.CounterFailureInvisible | src/server.js:116-121 | Whatever the counter upsert does, the answer, the request and the messages are the same. |
| Server.HelloWithoutProvider | src/server.js:78-140 | `{question:"hello", session_identifier:"s1"}` without a provider answers `Hello! You asked: "hello"` in echo mode and records the two rows for `s1`. |
| Server.HelloEcho | src/server.js:92 | The echo template applied to `hello`. |
| Server.HelloIsValid | src/server.js:80-85 | That body passes validation. |
| Server.Latest | src/server.js:157-158 | The `limit` newest rows, newest first: `min(limit, n)` rows, the i-th being the i-th from the end. |
| Server.OfSession | src/server.js:156 | Exactly the rows of the session, still in creation order. |
| Server.LatestNewest | src/server.js:157-158 | On a chronological log, `Latest` is newest first, and every omitted row is older than every returned row. |
| Server.OmittedOlder | src/server.js:157-158 | A row `Latest` leaves out is older than every row it returns. |
| Server.History | src/server.js:148-166 | A missing or empty session gives the 400. With a session present, a completed query answers with that session, a store error value gives the 500 with its message, and a thrown error gives the internal 500. A successful answer has at most 20 rows, all of the session and from the log, and a count equal to the number of rows. |
| Server.HistoryNewestFirst | src/server.js:153-161 | A successful history answer is the session's `min(20, n)` newest rows, newest first; none of the session's omitted rows is newer. |
| Server.ProofLimit | src/server.js:61 | The limit is the parsed value capped at 20, and 5 when the parameter is absent. |
| Server.ProofMessages | src/server.js:59-73 | The answer is a success exactly when the query completes. A store error value and a thrown error give their own 500 with the message. A success has at most 20 rows, all from the log, and `min(5, n)` rows by default. |
| Server.ProofNewestFirst | src/server.js:61-69 | The proof rows are the newest `min(limit, 20)` rows across all sessions, newest first. |
| GoogleDrive.Matches | src/memory/googleDrive.js:12-16 | A folder answers the top-level query when its name is the name asked for, and a child query when, in addition, the given folder is its parent. |
| GoogleDrive.FirstMatch | src/memory/googleDrive.js:10 | A `pageSize: 1` query answers with the first matching folder, and with none only when nothing matches. |
| GoogleDrive.FirstMatchExtend | src/memory/googleDrive.js:10 | Folders created later do not change what an already matching query finds. |
| GoogleDrive.FindFolder | src/memory/googleDrive.js:10 | `find` returns an id iff some folder matches. The id it returns is that of a matching folder with no matching folder before it. |
| GoogleDrive.FindOrMake | src/memory/googleDrive.js:12-17 | An existing folder is reused with the state unchanged; otherwise a folder with a fresh id is appended. The same query then finds the returned id. Files and index are untouched. |
| GoogleDrive.FolderName | src/memory/googleDrive.js:9 | The configured folder name, or `AntMemory` when it is unset or empty. |
| GoogleDrive.EnsureFoldersSpec | src/memory/googleDrive.js:8-19 | `ensureFolders` only adds folders (at most three) and keeps files, index and id freshness. The returned ids are the ones the three queries find afterwards: the folder named `name`, the `memories` folder under it and the `snapshots` folder under it. |
| GoogleDrive.FindOrMakeKeeps | src/memory/googleDrive.js:12-17 | A folder that could be found before a find-or-make is found again after it. |
| GoogleDrive.EnsureFoldersIdempotent | src/memory/googleDrive.js:12-18 | A second `ensureFolders` creates nothing and returns the same three ids. |
| GoogleDrive.ReadIndexSpec | src/memory/googleDrive.js:20-30 | A missing index is created as `{}` and read as `{}`. An unparsable one reads as `{}`. Otherwise its entries are read. Nothing else changes. |
| GoogleDrive.ReadIndexStable | src/memory/googleDrive.js:20-30 | Reading the index again right after reading it changes nothing and gives the same map. |
| GoogleDrive.FindInFolder | src/memory/googleDrive.js:34-37 | `findInFolder` returns an id iff the folder has a file of that name, and it is that file's id. |
| GoogleDrive.Put | src/memory/googleDrive.js:38-46 | An existing file gets the new bytes and properties and keeps its id. Otherwise a file with a fresh id, distinct from every other, is made. No other file, folder or the index changes. |
| GoogleDrive.PutTwice | src/memory/googleDrive.js:38-46 | Writing the same file twice equals writing it once: no duplicate, same id. |
| GoogleDrive.MemoryKey | src/memory/googleDrive.js:52 | The key is the session, a colon and the topic. |
| GoogleDrive.PartName | src/memory/googleDrive.js:61 | `key.part<n>.txt` starts with the key, has the length of the key plus 9 plus the digits of n, and is never the name `key.txt` of this same memory unsplit. |
| GoogleDrive.PartKey | src/memory/googleDrive.js:63 | `key#<n>` starts with the key, has the length of the key plus 1 plus the digits of n, and is never `key`, the index key of this same memory unsplit. |
| GoogleDrive.SingleName | src/memory/googleDrive.js:66 | `key.txt` is the key followed by four characters. |
| GoogleDrive.PartNameInjective | src/memory/googleDrive.js:61 | Different parts get different file names. |
| GoogleDrive.PartKeyInjective | src/memory/googleDrive.js:63 | Different parts get different index keys. |
| GoogleDrive.Parts | src/memory/googleDrive.js:58 | No content gives no parts, non-empty content at least one and at most one per byte, and content that does not fit at least two. |
| GoogleDrive.PartsIsCeiling | src/memory/googleDrive.js:58 | The part count is the ceiling of `len/maxBytes`: the parts cover every byte, and one part fewer would not. |
| GoogleDrive.SliceBounds | src/memory/googleDrive.js:60 | Every slice starts inside the buffer. |
| GoogleDrive.Slice | src/memory/googleDrive.js:60 | Slice i is the run of bytes starting at offset `i*maxBytes`. It is non-empty and at most `maxBytes` long, and exactly `maxBytes` long for every part but the last. |
| GoogleDrive.Plan | src/memory/googleDrive.js:57-69 | Content that fits (empty included) is one file `key.txt` under `key`. Otherwise there are `ceil(len/maxBytes)` files, at least two. |
| GoogleDrive.PlanParts | src/memory/googleDrive.js:59-63 | In the chunked case, file n is `key.part<n>.txt`, indexed `key#<n>`, holding slice n-1. |
| GoogleDrive.JoinedSlices | src/memory/googleDrive.js:58-60 | The first n slices joined are the first `min(n*maxBytes, len)` bytes. |
| GoogleDrive.ChunksRoundTrip | src/memory/googleDrive.js:58-60 | The written files joined in order are the original bytes, in both cases. |
| GoogleDrive.ChunkSizes | src/memory/googleDrive.js:58-60 | Every part is non-empty and at most `maxBytes` long, and all but the last are exactly `maxBytes`. |
| GoogleDrive.PlanDistinct | src/memory/googleDrive.js:61-63 | The planned names are pairwise distinct, and so are the index keys. |
| GoogleDrive.WriteAll | src/memory/googleDrive.js:59-62 | After the writes every planned file exists and existing files keep their ids. All other files, the folders and the index are unchanged. |
| GoogleDrive.WriteAllHolds | src/memory/googleDrive.js:59-62 | Each planned file holds its own slice and the memory's properties. |
| GoogleDrive.ApplyIndex | src/memory/googleDrive.js:63 | Index keys outside the plan, stale ones included, are kept. Every planned key is present. |
| GoogleDrive.ApplyIndexHolds | src/memory/googleDrive.js:63 | Each planned key records its own file and `now`. |
| GoogleDrive.MaxBytes | src/memory/googleDrive.js:54 | The byte limit is the configured value as it is, and 1048576 when unset. |
| GoogleDrive.Content | src/memory/googleDrive.js:55 | The bytes written are the given content, or none when the content is absent. |
| GoogleDrive.Props | src/memory/googleDrive.js:56 | Every file of the upsert carries the request's topic and session and the expiry time. |
| GoogleDrive.HasCredentials | src/memory/googleDrive.js:4-5 | A client exists iff both the e-mail and the key are present and non-empty. A missing or empty one means no client. |
| GoogleDrive.Prepared | src/memory/googleDrive.js:50-51 | After `ensureFolders` and `readIndex` the files are unchanged, the top-level query for the configured folder name finds the returned top id, and the `memories` query under the top folder finds the returned memories id. The index read is the stored map, or `{}` when the document is missing (which creates it) or unreadable. Fresh ids stay fresh. |
| GoogleDrive.UpsertMemorySpec | src/memory/googleDrive.js:47-72 | The answer is `no_credentials` with the Drive unchanged exactly when the e-mail or the key is missing or empty, and `ok` otherwise. Fresh ids stay fresh. |
| GoogleDrive.UpsertStoresPlan | src/memory/googleDrive.js:57-70 | Every planned file is in `memories` with its bytes. The written index maps every planned key to its file and `now`. Other files and other index keys, stale ones included, are as before. |
| GoogleDrive.SingleFileUpsert | src/memory/googleDrive.js:65-69 | Content that fits is written as exactly one file `key.txt` with the whole content, and only `index[key]` is set. |
| GoogleDrive.ChunkedUpsert | src/memory/googleDrive.js:57-64 | Oversized content is written as `ceil(len/maxBytes)` parts named `key.part1.txt`…, indexed `key#1`…, and they join back to the content. |
| GoogleDrive.Drive.MakeFolder | src/memory/googleDrive.js:11 | `mk` appends a folder whose id is the next id, returns it and advances the next id, so ids stay fresh. |
| GoogleDrive.Drive.FindOrMakeFolder | src/memory/googleDrive.js:12-17 | One find-or-create step of the object matches `FindOrMake`. |
| GoogleDrive.Drive.EnsureFolders | src/memory/googleDrive.js:8-19 | The object's `ensureFolders` matches `EnsureFoldersSpec`. |
| GoogleDrive.Drive.ReadIndex | src/memory/googleDrive.js:20-30 | The object's `readIndex` matches `ReadIndexSpec`. |
| GoogleDrive.Drive.WriteIndex | src/memory/googleDrive.js:31-33 | The index document then holds exactly the given map. |
| GoogleDrive.Drive.CreateOrUpdate | src/memory/googleDrive.js:38-46 | The object's `createOrUpdate` matches `Put`, and ids stay fresh. |
| GoogleDrive.WritePart | src/memory/googleDrive.js:60-63 | One loop round writes slice i as part i+1 and records it in the index, taking the Drive and the index from the first i planned files to the first i+1. |
| GoogleDrive.WriteParts | src/memory/googleDrive.js:58-64 | The loop leaves the Drive as `WriteAll` of the plan, and the index as `ApplyIndex` of the plan. |
| GoogleDrive.WriteMemory | src/memory/googleDrive.js:57-69 | Both branches write the plan's files and record them in the index. |
| GoogleDrive.UpsertMemory | src/memory/googleDrive.js:47-72 | The method leaves the Drive and the answer exactly as `UpsertMemorySpec` says, and keeps ids fresh. |

## Left out

- The Express plumbing is out: body parsing, CORS, request logging, static
  files, `/healthz`, `/mode`, `/version` and `listen`. It carries no logic.
  The body is taken as an already parsed JSON object. A body that is not an
  object (`req.body || {}` on an array or a string) is not modelled.
- The OpenAI and Supabase clients are replaced by outcome inputs. Their
  network behaviour, and which of their failures throw and which return, are
  not visible to the service.
- `src/supabase.js` is not part of this model. It only builds the client.
- Logging (`console.error`) is out, because it has no effect on state or answers.
- JavaScript number coercion is out: `Number(...)`, `parseInt(...)`, NaN and
  non-integers. Settings and query parameters are taken as integers or as
  absent. An empty `OPENAI_MODEL` is treated as unset.
- Server.ProofMessages: a limit below one returns no rows. The store's actual
  behaviour for a negative or zero `limit` is not visible here.
- Server.History: the query parameter is taken as a string or absent. Array
  values, and the store's coercion of non-string session ids in `.eq`, are not
  modelled.
- The column projections (`select(...)`) are out. Rows are returned whole.
- The clock is an input. Creation times are modelled as a serial number the
  store assigns, so the log order is the `created_time` order. Ties between
  equal timestamps are not modelled.
- Characters are Unicode scalar values, not UTF-16 code units. This matters
  only for characters outside the Basic Multilingual Plane, which are not
  whitespace either way.
- Concurrency is out: interleaving of concurrent turns and races on the
  counter (last write wins) are not part of the sequential logic.
- The JWT client object is out. So is the key rewrite
  `replace(/\n/g, "\n")`, which leaves the key unchanged as written. Only
  whether both credentials are non-empty is modelled.
- The Drive query strings are modelled by their meaning. A name containing a
  quote would break the real query; such names are not modelled.
- A failing Drive call is not modelled. The real upsert would then reject with
  some parts already written and the index not written back.
- Trashed items are out, and so are folders inside `memories` whose names
  equal a file name. Duplicate file names in one folder cannot occur in the
  model, because the file map is keyed by (parent, name).
- The index document's own id and its location in the app-data space are not
  modelled. An index whose JSON is not an object is not modelled either.
- JSON parsing and serialisation of the index are out: the document holds
  the map itself. So is the UTF-8 encoding of the content, which the model
  takes as bytes.
- The `expires_at` arithmetic is out; the expiry time is an input string.
- The `type: "memory"` property is implied rather than stored.
- GoogleDrive.UpsertMemory requires a positive byte limit when credentials are
  present; without credentials any limit is accepted. With a limit of 0
  and non-empty content the real loop would not terminate, and with a
  negative one it would write no part.
- GoogleDrive.Matches leaves out the queries' `mimeType` and `trashed=false`
  terms. The model's folder list holds only folders and has no trash.
- GoogleDrive.FirstMatch fixes an order that Drive does not promise: a
  `files.list` with `pageSize: 1` and no `orderBy` may return any matching
  folder, and the model returns the first one created.
  `EnsureFoldersIdempotent`'s "same ids" depends on this order whenever one of
  its three queries matches more than one folder. For example, with the
  folder name `memories`, the top query also matches the child `memories`
  folder.
