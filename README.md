# Chat view state engine and error normalizer

A Dafny model of the logic inside the chat view of a streaming chat client.
`ChatMessages` (components/chat-messages.tsx) renders a list of conversation
sections. Each section is one user message plus the assistant messages that answer it.
`ChatError` (components/chat-error.tsx) turns an error value of unknown shape into
the one line the error card shows.

The model covers:

- **Tool-count cache** (`ChatMessages.LookupToolCount`, `ChatMessages.Session.GetToolCount`).
  It counts a message's parts whose type is `tool-search`, `tool-fetch`,
  `tool-askQuestion` or `tool-relatedQuestions`. The count is memoized per message
  id while the view is not loading. While loading it is counted live and the cache
  is not touched. The cache is emptied when loading starts.
- **Disclosure resolution** (`ChatMessages.ResolveOpen`, `ChatMessages.Session.IsOpen`, `ChatMessages.Session.SetOpen`).
  An explicit user choice always wins. Otherwise the first matching default applies:
  - a tool-type part is open iff its message holds at most one tool part;
  - `tool-invocation` is open;
  - `reasoning` is open iff no part follows it;
  - anything else is open.
- **Section composer** (`Composer.Compose`, `Composer.CollectMessages`).
  It renders the sections in order. The loading indicator and the error slot go
  after the last section only, the indicator only while loading
  (`Messages.IsLoading`, the status test at components/chat-messages.tsx:53 and 82).
  `isLatestMessage` marks only the last reply of the last section. The flat
  message list handed to the citation extractor follows the same order as the render.
- **Error normalizer** (`ChatError.Normalize`). It implements the fallback chain
  (Error, string, object `message`, object `error`, serialization, `String()`).
  A best-effort step then replaces the candidate with the `error` field of an
  embedded `{...}` object. `ErrorSpan` models the regular expression `/\{.*\}/`
  and proves it finds the leftmost, then longest, match that does not cross a line break.

`Session` is a class because the source keeps this state across renders and updates
it in place: the tool-count `Map` ref, the `userModifiedStates` record, and the
`isLoading` flag that the effect watches. Each method's contract equals a pure
function of the old state (`LookupToolCount`, `ResolveOpen`). Lemmas over those
functions and over runs of calls (`CacheAfter`, `ApplyChoices`) state what the code
promises across several calls. `JSON.stringify`, `JSON.parse` and the citation
extractor are foreign code, so they are function parameters.

Facts of the code that the model follows:

- The tool part types are the four strings `tool-search`, `tool-fetch`, `tool-askQuestion` and `tool-relatedQuestions` (components/chat-messages.tsx:56-61).
- The cache is cleared by the effect that runs when `isLoading` becomes true (components/chat-messages.tsx:63-67). There is no other signal that clears it.
- Every falsy error value shows nothing, not only `null` and `undefined` (components/chat-error.tsx:10).
- Merging citation maps is left to `extractCitationMapsFromMessages` (components/chat-messages.tsx:77), which is not part of this model, so no merge policy is asserted.

## Model

| member | source | states |
|---|---|---|
| `Messages.ToolCount` | components/chat-messages.tsx:96-97 | the same filter as the live count at line 89: a message without parts counts 0 (the `|| 0`); otherwise the count is the number of positions holding a tool-type part, at most the number of parts |
| `Messages.ToolParts` | components/chat-messages.tsx:96-97 | the filtered parts are no more than the parts, and every one of them is a part of the message with a tool type |
| `Messages.ToolPartsCountsPositions` | components/chat-messages.tsx:96-97 | the filter's length equals the number of positions holding a tool-type part |
| `Messages.ToolPartsAppend` | components/chat-messages.tsx:87-91 | a part streaming in adds one to the live count exactly when its type is a tool type |
| `ChatMessages.LookupToolCount` | components/chat-messages.tsx:84-100 | a call never changes a cached entry, and the only key it may add is the message's own id |
| `ChatMessages.UnidentifiedCountsZero` | components/chat-messages.tsx:85 | a missing message or an empty id gives 0 and leaves the cache unchanged, loading or not |
| `ChatMessages.LoadingCountsLive` | components/chat-messages.tsx:87-91 | while loading, the count is the live tool count whatever the cache holds, and the cache is unchanged |
| `ChatMessages.LoadingNeverWritesCache` | components/chat-messages.tsx:87-91 | any run of calls made while loading leaves the cache exactly as it was |
| `ChatMessages.MissStoresCount` | components/chat-messages.tsx:96-99 | a miss returns the live count and stores exactly `cache[id] := count` |
| `ChatMessages.CachedEntriesPersist` | components/chat-messages.tsx:93-99 | a cached entry survives any run of calls with its value unchanged |
| `ChatMessages.SecondLookupHitsCache` | components/chat-messages.tsx:93-94 | when not loading, a later call for the same id returns the first call's count even if the parts changed and other calls came between; that later call leaves the cache unchanged |
| `ChatMessages.ResolveOpen` | components/chat-messages.tsx:102-121 | a recorded choice decides, for every part type, next-part flag, message and loading state, and leaves the cache unchanged; only a tool-type part can touch the cache |
| `ChatMessages.ToolPartThreshold` | components/chat-messages.tsx:112-115 | with no choice, a tool-type part is open iff its message's tool count is at most 1 |
| `ChatMessages.ToolThresholdBoundary` | components/chat-messages.tsx:114 | one tool part is open and two tool parts are closed |
| `ChatMessages.InvocationAndOtherDefaultsOpen` | components/chat-messages.tsx:117-120 | with no choice, `tool-invocation`, an absent type and every other non-tool, non-reasoning type are open, and the cache is unchanged |
| `ChatMessages.ReasoningOpenUntilFollowed` | components/chat-messages.tsx:118 | with no choice, a reasoning part is open iff it has no next part; an absent flag counts as no next part |
| `ChatMessages.ChoiceStaysInForce` | components/chat-messages.tsx:123-128 | after `handleOpenChange(id, open)`, later choices for other ids keep `overrides[id] == open` |
| `ChatMessages.Session.constructor` | components/chat-messages.tsx:49-53 | the first render has an empty cache, no choices, and the loading flag of its status; the session invariant (an empty cache while loading) holds |
| `ChatMessages.Session.OnStatus` | components/chat-messages.tsx:63-67 | the cache is emptied exactly when loading has just become true; the choices are unchanged; the invariant that the cache is empty while loading is kept |
| `ChatMessages.Session.GetToolCount` | components/chat-messages.tsx:84-100 | the count and new cache are those of `LookupToolCount` on the old cache; the choices and loading flag are unchanged; the cache stays empty while loading |
| `ChatMessages.Session.IsOpen` | components/chat-messages.tsx:102-121 | the answer and new cache are those of `ResolveOpen` on the old state; the choices are unchanged; the cache stays empty while loading |
| `ChatMessages.Session.SetOpen` | components/chat-messages.tsx:123-128 | only `overrides[id] := open` changes, at once; the invariant is kept |
| `ChatMessages.CountAcrossStatusChange` | components/chat-messages.tsx:84-99 | once settled, a second count of a message whose parts grew returns the first count; after streaming starts the count is live; a recorded `false` beats the tool threshold |
| `Composer.Flatten` | components/chat-messages.tsx:72-76 | the flat list holds as many messages as the sections hold in total, user messages and replies together |
| `Composer.FlattenAppend` | components/chat-messages.tsx:72-76 | flattening is section by section: flattening two section lists joined equals joining their flattenings |
| `Composer.FlattenPosition` | components/chat-messages.tsx:72-76 | section `k`'s user message and its replies sit in the flat list right after all messages of earlier sections, in order |
| `Composer.CollectMessages` | components/chat-messages.tsx:72-76 | the push loop builds exactly the flat list |
| `Composer.AllCitationMaps` | components/chat-messages.tsx:71-78 | the extractor is applied once, to exactly the flat list |
| `Composer.Compose` | components/chat-messages.tsx:80 | nothing is rendered iff there are no sections |
| `Composer.RenderOrderIsCitationOrder` | components/chat-messages.tsx:142-203 | the rendered messages, in order, are exactly the list given to the citation extractor |
| `Composer.AffordancesOnlyOnLastSection` | components/chat-messages.tsx:174-213 | every item matches its section: a loading indicator only on the last section and only while submitted or streaming; the error slot only on the last section, carrying the error; `isLatestMessage` iff last reply of the last section |
| `Composer.ComposeEndsWithAffordances` | components/chat-messages.tsx:205-213 | with sections, the render ends with the loading indicator while loading, then the error slot; all earlier items are messages; only the item just before them can be latest, and it is when the last section has replies |
| `ErrorSpan.FindSpan` | components/chat-error.tsx:28 | a found span is at least two characters and lies inside the string |
| `ErrorSpan.FindSpanIsLeftmostLongest` | components/chat-error.tsx:28 | no span iff no substring matches `\{.*\}`; a found span matches, no match starts earlier, and none from the same start is longer |
| `ErrorSpan.FindSpanIsUnique` | components/chat-error.tsx:28 | the leftmost-longest match is the span found |
| `ChatError.DecimalDigits` | components/chat-error.tsx:23 | the numeral of a natural number is non-empty, all digits, without a leading zero, and denotes that number |
| `ChatError.ToDisplayString` | components/chat-error.tsx:23 | `String(n)` of a safe integer is its canonical numeral: non-empty digits without a leading zero, after a minus sign when negative, reading back as `n` |
| `ChatError.CandidateAsWritten` | components/chat-error.tsx:14-21 | as written, the candidate is missing (an exception) iff the value is an object with falsy `message` and `error` whose serialization throws |
| `ChatError.Candidate` | components/chat-error.tsx:14-24 | the candidate is the one the code as written picks whenever that does not throw, and `String(error)` otherwise |
| `ChatError.Refine` | components/chat-error.tsx:26-37 | a changed result is the non-empty `error` string of the parsed span |
| `ChatError.NormalizeAsWritten` | components/chat-error.tsx:9-37 | as written, nothing is shown exactly when the error is falsy |
| `ChatError.Normalize` | components/chat-error.tsx:9-37 | no output iff the error is falsy; never throws |
| `ChatErrorProperties.FalsyShowsNothing` | components/chat-error.tsx:10 | undefined, null, false, 0 and the empty string show nothing |
| `ChatErrorProperties.CandidateFallbackChain` | components/chat-error.tsx:14-24 | in order: an Error's message, the string itself, a truthy `message`, a truthy `error`, the serialization, `String()` |
| `ChatErrorProperties.RefineWithoutBrace` | components/chat-error.tsx:28-29 | a candidate without `{` is shown unchanged |
| `ChatErrorProperties.RefineTakesParsedError` | components/chat-error.tsx:30-33 | a found span parsing to a non-empty `error` gives that string |
| `ChatErrorProperties.RefineFallsBack` | components/chat-error.tsx:27-37 | with no span, a parse failure, or an absent or empty `error`, the candidate is shown unchanged |
| `ChatErrorProperties.PlainExamples` | components/chat-error.tsx:14-21 | `{message: "x"}` shows `x`, `"plain"` shows `plain`, an Error with message `boom` shows `boom` |
| `ChatErrorProperties.EmptyObjectExample` | components/chat-error.tsx:21 | `{}` shows `{}` |
| `ChatErrorProperties.SpanBetweenPlainText` | components/chat-error.tsx:28 | a one-line `{...}` object between text without `{` and text without `}` is exactly the span found |
| `ChatErrorProperties.EmbeddedErrorSpan` | components/chat-error.tsx:28 | in `prefix {"error":"bad key"} suffix` the span is exactly the JSON object |
| `ChatErrorProperties.EmbeddedErrorExample` | components/chat-error.tsx:27-34 | `prefix {"error":"bad key"} suffix` shows `bad key` |
| `ChatErrorProperties.SpanIsGreedyOnLine` | components/chat-error.tsx:28 | in `{a} {b}` the span runs to the last `}` |
| `ChatErrorProperties.SpanStopsAtLineBreak` | components/chat-error.tsx:28 | in `{a}`, newline, `{b}` the span stops before the line break |
| `ChatErrorProperties.AsWrittenThrowsOnlyOnUnserializable` | components/chat-error.tsx:18-21 | as written, rendering throws iff the value is an object with falsy `message` and `error` whose serialization throws |
| `ChatErrorProperties.UnserializableObjectThrows` | components/chat-error.tsx:21 | such an object makes the code as written throw |
| `ChatErrorProperties.CorrectedAgreesExceptWhenThrowing` | components/chat-error.tsx:18-24 | the corrected normalizer agrees with the code wherever it does not throw, and otherwise shows `[object Object]` |

## Findings

| source | as written | input that shows it | evidently intended | confidence | as-written member | corrected member |
|---|---|---|---|---|---|---|
| components/chat-error.tsx:21 | `JSON.stringify(error)` runs before the `try` that starts at line 27, so its exception escapes `ChatError` | an object with no truthy `message` or `error` that cannot be serialized: one that refers to itself, or one holding a BigInt | every later step is best-effort: the `try`/`catch` at lines 27-37 keeps the candidate whenever refining it throws, but the `JSON.stringify` at line 21 sits outside it; fall back to `String(error)` there too | medium, not executed | `ChatErrorProperties.UnserializableObjectThrows` | `ChatErrorProperties.CorrectedAgreesExceptWhenThrowing` |

## Left out

- All JSX, class names and styling, `AnimatedLogo`, the card and icon, the `useMediaQuery`/`offsetHeight` minimum height, and `scrollContainerRef`. They are presentation only.
- `extractCitationMapsFromMessages` is not part of this model. It is a parameter of `Composer.AllCitationMaps`, and no merge policy is asserted.
- `RenderMessage` and the callbacks passed straight through (`onQuerySelect`, `onUpdateMessage`, `reload`, `addToolResult`, `chatId`, `isGuest`). A render item does not carry the per-message `getIsOpen` closure or the citation maps.
- React scheduling. The effect that clears the cache runs after the render in the source. Here `Session.OnStatus` runs before the reads of the new render. Reads made while loading bypass the cache, so the counts they return are the same either way.
- `Session.SetOpen` takes effect at once. In the source `setUserModifiedStates` (components/chat-messages.tsx:124) queues an update that later reads see only from the next render.
- `JSON.parse` and `JSON.stringify` are parameters. A parsed `error` field that is a truthy non-string is not modelled.
- `message` or `error` fields of an error object that are truthy non-strings, such as a nested object, are not modelled. Only strings and absent fields are.
- `ChatError.Number` holds only safe integers (magnitude below 2^53). JavaScript numbers are doubles: fractions, NaN, `Infinity`, `-0`, integers past 2^53 and the exponent form `String(1e21) == "1e+21"` are not modelled, and neither are BigInt error values.
- `ChatError.CandidateAsWritten` treats `JSON.stringify` returning `undefined` as the empty candidate. The code keeps `undefined`, skips the refinement (`errorMessage?.`) and the card shows no text, which is what the empty string gives too.
- Ids that collide with `Object.prototype` members (such as `hasOwnProperty`) are not modelled: the override record is a plain map.
- The status type is modelled with five names. The code only tests for `submitted` and `streaming`.
- lib/ai/model.ts is not part of this model. It is a two-case factory of classes that are not shown.
- scripts/regenerate-lockfile.js is not part of this model. It only runs a package manager.
