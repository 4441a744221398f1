# Speechify: ingestion queue and playback controller, modelled in Dafny

The system reads arbitrary content aloud, one small chunk at a time. The
server side turns a submitted document (`{ type, source, data }`, with type
TXT, HTML or JSON) into one narration string, cuts that narration into
groups of at most three lines, and appends one chunk per group to a FIFO
queue; `getNextChunk` hands out the head. The client side is a two-state
controller (PLAYING / NOT_PLAYING) that pulls a chunk from the server, gives
it to the browser's speech engine, pulls again when the utterance ends, and
reports state changes to a single listener.

Files and modules:

- `strings.dfy` (`Strings`): JavaScript's `split` with a one-character
  separator (always at least one piece) and `join`, with both round trips.
- `common.dfy` (`Common`): `Option`, `DataType`, `Data`, `StreamChunk`.
- `normalizer.dfy` (`Normalizer`, `NormalizerFacts`): `parseTxt`,
  `parseHtml`, `parseJson` and the type dispatch of `addToQueue`, as
  functions whose result is a narration or an exception.
- `segmenter.dfy` (`Segmenter`): `splitContent`, as a method with its loop,
  proved against the function `Segments`.
- `ingestion.dfy` (`Ingestion`): the class `MySpeechify` with its `queue`,
  the functions `Add` and `Take` that specify its two methods, and the FIFO
  lemmas.
- `playback.dfy` (`Playback`): the class `SpeechifyClient` with the fields
  `playing`, `utterance` and `listener`, and a `SpeechSynthesis` object for
  the browser's engine (`paused`, `speaking`, a ghost log of speak / pause /
  resume calls). Requests sent to the server and events handed to the
  listener are ghost logs on the client. Every method keeps the client's
  invariant `Valid()`: a held utterance has non-empty text, the locale
  `en-US`, and has been handed to the engine.

Modelling decisions:

- The foreign calls `htmlToText` and `JSON.parse` are fields of a
  `Library` value handed to the server's constructor. `JSON.parse` yields
  an already-parsed record (`JsonDoc`): `None` for a malformed payload,
  `from` / `channel` as `None` when absent or not strings (so `substr`
  throws), and the timestamp already rendered by `toLocaleString`.
- The JSON fallback interpolates the document object itself, so the model
  renders it as JavaScript does: the literal `[object Object]`.
- A stock line without a tab has no price, and `price.split` throws; the
  whole document is then dropped. A price without a '.' renders its cents
  as `undefined`.
- Each HTTP response is a method parameter: the optional chunk for a pull
  (`ReceiveChunk`), the `success` flag for a submission (`AddToQueue`). The
  request is recorded in the client's `requests` log. For `addToQueue` the
  model reads the client's state at the moment the response is handled.
- The end of an utterance is the explicit call `UtteranceEnded`, which
  issues the next pull. The engine's own progress is `SpeechSynthesis.Finish`.
- One combination of calls deserves a note: when `pause()` comes while a pull
  is still unanswered, the answer speaks the chunk and resumes the engine,
  and the next `getState()` reports PLAYING without any `play()`
  (`PauseDuringPullScenario`).
- A document with empty `data` is not always refused. A text document
  from any source but the stock ticker still gets its header and is
  accepted (`EmptyTextNarrated`). An empty stock-ticker payload throws and
  is dropped (`EmptyStockFeedThrows`). Every supported type has a non-empty
  header, so only an unsupported type gives an empty narration
  (`Normalizer.Normalize`).

## Model

| member | source | states |
|---|---|---|
| Strings.Split | src/server/speechify.ts:52 | `split('\n')` yields at least one piece and no piece contains the separator |
| Strings.JoinSplit | src/server/speechify.ts:52-56 | joining the pieces of a split with the separator gives the original string |
| Strings.SplitJoin | src/server/speechify.ts:52-56 | splitting a join of separator-free parts gives the parts back |
| Normalizer.StockEntry | src/server/speechify.ts:32-35 | a stock line throws exactly when it has no tab |
| Normalizer.StockEntryFormat | src/server/speechify.ts:33-35 | `sym\tdollars.cents` becomes `sym, dollars dollars and cents cents.` |
| Normalizer.StockEntries | src/server/speechify.ts:32-36 | the map over stock lines succeeds exactly when every line has a tab, keeping order and length |
| Normalizer.ParseTxt | src/server/speechify.ts:29-43 | throws exactly for a stock-ticker payload with a tab-less line; otherwise a non-empty narration |
| Normalizer.TxtFallbackVerbatim | src/server/speechify.ts:38-39 | a text document from any other source never throws and its payload ends the narration unchanged |
| Normalizer.ParseHtml | src/server/speechify.ts:6-15 | HTML never throws and always has a non-empty narration |
| Normalizer.DropFirst | src/server/speechify.ts:21 | `substr(1)` is the string without its first character, and empty for an empty string |
| Normalizer.ParseJson | src/server/speechify.ts:17-27 | throws exactly for a malformed payload, or a chat payload lacking a string `from` or `channel`; otherwise non-empty |
| Normalizer.Normalize | src/server/speechify.ts:72-79 | the narration is empty exactly for an unsupported type; only TXT and JSON can throw |
| NormalizerFacts.StockNarrationLines | src/server/speechify.ts:31-37 | N ticker lines make a narration of N + 1 lines |
| NormalizerFacts.StockSingleLine | src/server/speechify.ts:31-37 | a one-line ticker payload is the header line followed by the price line |
| NormalizerFacts.EmptyStockFeedThrows | src/server/speechify.ts:32-34 | an empty ticker payload throws |
| NormalizerFacts.EmptyTextNarrated | src/server/speechify.ts:38-39 | an empty payload from another text source is narrated as the header alone |
| NormalizerFacts.SlackExample | src/server/speechify.ts:20-21 | a chat message from `@bob` in `#general` is read as from `bob`, in `general` |
| Segmenter.Groups | src/server/speechify.ts:55-58 | ceil(N/3) groups of one to three lines, all but the last of exactly three, which laid end to end are the lines |
| Segmenter.SplitContent | src/server/speechify.ts:51-61 | the loop returns exactly `Segments(content)` |
| Segmenter.SegmentsProperties | src/server/speechify.ts:51-61 | at least one segment, ceil(N/3) of them for N lines, and re-joined with '\n' they are the input |
| Segmenter.SegmentLines | src/server/speechify.ts:55-58 | every segment has at most three lines and every segment but the last exactly three |
| Segmenter.SegmentsOfShort | src/server/speechify.ts:55-58 | a narration of at most three lines is one segment |
| Segmenter.SegmentsOfEmpty | src/server/speechify.ts:52-58 | the empty string yields exactly one empty segment |
| Ingestion.ChunksOf | src/server/speechify.ts:83-85 | one chunk per segment, in order, each the document with only `data` replaced |
| Ingestion.MySpeechify.constructor | src/server/speechify.ts:66-68 | a new server has an empty queue |
| Ingestion.MySpeechify.AddToQueue | src/server/speechify.ts:70-93 | the answer and the new queue are those of `Add`: all chunks appended after the old queue, or nothing changed |
| Ingestion.MySpeechify.GetNextChunk | src/server/speechify.ts:95-97 | the answer and the new queue are those of `Take`: the head is removed and returned; an empty queue answers `None` and stays empty |
| Ingestion.AddOutcome | src/server/speechify.ts:70-93 | false (queue unchanged) exactly for an unsupported type or a throwing parser; otherwise the old queue is a prefix, at least one chunk is added, each with the document's type and source, whose data re-joined is the narration |
| Ingestion.AddAllAppends | src/server/speechify.ts:82-85 | successive submissions append each document's chunks after the previous ones |
| Ingestion.DrainIsQueue | src/server/speechify.ts:95-97 | taking until empty yields every queued chunk once, oldest first |
| Ingestion.FifoOrder | src/server/speechify.ts:70-97 | chunks come out in submission order, then segment order |
| Ingestion.StockTickerScenario | src/server/speechify.ts:31-37 | a one-line ticker document such as `AAPL\t123.45` queues exactly one chunk holding the two-line narration |
| Playback.SpeechifyClient.constructor | src/client/speechify.ts:15-19 | a new client is NOT_PLAYING with no utterance and no listener |
| Playback.SpeechifyClient.AddToQueue | src/client/speechify.ts:21-30 | returns the server's flag, and pulls again exactly when PLAYING with no utterance |
| Playback.SpeechifyClient.Play | src/client/speechify.ts:32-40 | PLAYING; a pull only if there was no utterance; the engine resumed; a PLAYING event to the listener |
| Playback.SpeechifyClient.Pause | src/client/speechify.ts:42-46 | NOT_PLAYING; the engine paused; a NOT_PLAYING event to the listener; the utterance untouched |
| Playback.SpeechifyClient.GetState | src/client/speechify.ts:48-53 | corrected to PLAYING when the engine is speaking and not paused, otherwise unchanged; never PLAYING to NOT_PLAYING |
| Playback.SpeechifyClient.Subscribe | src/client/speechify.ts:55-56 | the single listener slot now holds the new listener |
| Playback.SpeechifyClient.Unsubscribe | src/client/speechify.ts:57 | the handle clears the slot whichever listener is current |
| Playback.SpeechifyClient.ReceiveChunk | src/client/speechify.ts:63-73 | a chunk with text becomes the utterance in `en-US`, spoken then resumed; no chunk or empty text clears the utterance; `playing` unchanged |
| Playback.SpeechifyClient.UtteranceEnded | src/client/speechify.ts:68 | the end of an utterance issues the next pull |
| Playback.EmptyQueueScenario | src/client/speechify.ts:21-40 | `play()` on an empty queue leaves the client PLAYING and idle; a later submission pulls again (the request log is pull, post, pull) |
| Playback.PauseScenario | src/client/speechify.ts:42-53 | after `pause()`, with the engine silent, `getState()` is NOT_PLAYING, and the listener heard PLAYING then NOT_PLAYING |
| Playback.PauseDuringPullScenario | src/client/speechify.ts:42-74 | a pull answered after `pause()` resumes speech and `getState()` reports PLAYING again, while the listener last heard NOT_PLAYING |

## Left out

- Console logging of a caught exception (src/server/speechify.ts:89): output only.
- The internals of `htmlToText`, `JSON.parse` and `Date.toLocaleString`: foreign, locale-dependent libraries, taken as given functions.
- The HTTP transport (`fetch`, URLs, JSON encoding of requests and responses): requests are logged, responses are parameters.
- The browser speech API beyond its `paused` / `speaking` flags and the calls made on it.
- `utterance.rate = 0.9` (src/client/speechify.ts:66): a floating-point tuning constant.
- Asynchronous interleaving and the `onend` callback chain: each response and each utterance end is an explicit method call, so the model does not reason about scheduling.
- `host` is stored but only builds the request URLs, which are not modelled.
- Normalizer.ParseJson: other JavaScript coercions (a non-object parse result, a non-string `message`) are folded into the foreign parse result rather than modelled one by one.
- Normalizer.DropFirst: strings are modelled as sequences of Unicode code points, while JavaScript strings are UTF-16 code units; where `substr(1)` drops one UTF-16 unit (leaving a lone surrogate after an astral first character such as an emoji), the model drops the whole character.
- Playback.SpeechifyClient.ReceiveChunk, Playback.SpeechifyClient.UtteranceEnded: nothing ties a response to an earlier request or an end to a current utterance; the model admits any order of responses and callbacks, as the asynchronous source does not guard against them either.
