# Synchronization journal: a Dafny model

The application is a journal. A signed-in user records signals: an event text,
a thought, a feeling, a body sensation and a category, either `Personal` or
`Financiero`. Whenever the user's signal collection changes, the app splits the
collection into one stream per category. A stream "synchronizes" when its first
entry is a contraction and its last entry is an expansion. A contraction has a
fear-like keyword in the feeling or the thought. An expansion names
"resonancia" in its text and has a calm-like keyword in its feeling. For each
synchronized stream the app asks a language model for a solution, shows a
notice and appends an event to the synchronization history.

The model has six modules:

- `Wrappers`: the `Option` type, used for fields that may be missing.
- `Strings`: the three JavaScript string operations the rules rely on.
  - `toLowerCase` is `Lower`.
  - `includes` is `Includes`, proved equal to "occurs at some index".
  - `trim` is `Trim`, with the ECMAScript white-space set.
- `Detector`: the detection rule as pure functions and lemmas: keyword tests,
  streams, per-stream verdicts and the evaluation of both streams.
- `Generator`: what `generateSolution` makes of the service's answer. The
  answer is either a parsed reply of optional nested fields or a raised
  exception.
- `Journal`: the component state that the handlers update, as a class `App`.
  - `AddSignal` is `handleAddSignal`.
  - `CheckSynchronization` is the synchronous part of `checkSynchronization`.
  - `RunSynchronization` is the timer callback, built from one `Synchronize`
    block per stream.
- `Scenarios`: worked examples on concrete journals.

An expansion keyword counts only in the feeling.
`Scenarios.ExpansionKeywordInTextOnly` shows that a pair whose second entry has
"resonancia y seguridad" in its text and no feeling does not synchronize.

## Model

| member | source | states |
|---|---|---|
| Strings.Lower | src/app.js:119-120 | lower-casing keeps the length and maps each character through `LowerChar`, which lowers exactly the upper-case letters it knows and fixes every other character |
| Strings.LowerConcat | src/app.js:119-120 | lower-casing distributes over concatenation |
| Strings.LowerFixes | src/app.js:126-127 | a string without upper-case letters is its own lower-case form |
| Strings.LowerIdempotent | src/app.js:126-127 | lower-casing twice is the same as lower-casing once |
| Strings.Includes | src/app.js:121 | `includes` holds exactly when the key occurs in the string at some index |
| Strings.IncludesWithin | src/app.js:128 | matching is by substring: text added on either side keeps every match |
| Strings.IncludesCaseVariant | src/app.js:126-128 | after lower-casing, a stretch written in any case matches the keyword it lower-cases to |
| Strings.Trim | src/app.js:162 | `trim` as `TrimEnd` after `TrimStart`; what it removes and keeps is stated by `TrimBounds` |
| Strings.TrimStart | src/app.js:162 | drops exactly the leading white space: the result is a suffix, everything removed is white space, and the result does not start with white space |
| Strings.TrimEnd | src/app.js:162 | drops exactly the trailing white space, the mirror image of `TrimStart` |
| Strings.TrimBounds | src/app.js:162 | the trimmed text is a stretch of the input with only white space around it, neither end is white space, and it is empty exactly when the input is all white space |
| Detector.KeywordsAreLowerCase | src/app.js:103-104 | every keyword and the marker "resonancia" are already lower case, so matching ignores the case the user typed |
| Detector.IsContraction | src/app.js:117-122 | the contraction test on a possibly absent signal; characterised by `ContractionIff` |
| Detector.ContractionIff | src/app.js:117-122 | `isContraction` holds exactly when some contraction keyword occurs in the lower-cased feeling or the lower-cased thought, a missing field counting as empty |
| Detector.ContractionInFeeling | src/app.js:119-121 | a contraction keyword written in any case anywhere in the feeling makes a contraction |
| Detector.ContractionInThought | src/app.js:120-121 | a contraction keyword written in any case anywhere in the thought makes a contraction |
| Detector.IsExpansionResonance | src/app.js:124-129 | the expansion test on a possibly absent signal; characterised by `ExpansionIff` |
| Detector.ExpansionIff | src/app.js:124-129 | `isExpansionResonance` holds exactly when "resonancia" occurs in the lower-cased text and some expansion keyword occurs in the lower-cased feeling |
| Detector.ExpansionFromParts | src/app.js:126-128 | the marker in any case in the text, together with an expansion keyword in any case in the feeling, makes an expansion |
| Detector.ExpansionNeedsFeeling | src/app.js:124-129 | without an expansion keyword in the feeling there is no expansion, whatever the thought says |
| Detector.Stream | src/app.js:110-111 | a stream is no longer than the list, and holds exactly the signals whose category is the stream's exact name |
| Detector.StreamConcat | src/app.js:110-111 | the stream of a concatenation is the concatenation of the streams, so streams keep the list's order |
| Detector.OtherCategoryDropped | src/app.js:110-111 | a signal of any other category string, inserted anywhere, leaves the stream unchanged |
| Detector.Qualifies | src/app.js:132 | the qualification test on a stream: at least two entries, the first a contraction and the last an expansion; its properties are `MiddleIrrelevant`, `ShortStreamNeverQualifies` and `VerdictSound` |
| Detector.MiddleIrrelevant | src/app.js:112-115 | only the first and the last entry decide qualification; entries between them can be changed, added or removed |
| Detector.ShortStreamNeverQualifies | src/app.js:132 | a stream with fewer than two entries never qualifies |
| Detector.OtherCategoryIrrelevant | src/app.js:110-115 | a stream's verdict is unchanged by inserting a signal of another category, so the two verdicts are independent |
| Detector.AppendedSignalIsLast | src/app.js:110-115 | an appended signal becomes its stream's last entry; the stream then synchronizes exactly when its first entry is a contraction and the new signal is an expansion |
| Detector.Verdict | src/app.js:132-133 | one stream's request, if any; characterised by `VerdictSound` |
| Detector.VerdictSound | src/app.js:132-133 | a stream yields a request exactly when it qualifies; the request pairs the stream's first entry, a contraction, with its last entry, an expansion, both among the given signals |
| Detector.PairVerdict | src/app.js:132-133 | a stream made of a contraction and then an expansion yields the request pairing the two |
| Detector.LonePairSynchronizes | src/app.js:106-141 | two signals of one stream, a contraction and then an expansion, produce exactly one request |
| Detector.BothPairsSynchronize | src/app.js:131-153 | when both streams are a contraction followed by an expansion, both requests are produced, Personal first |
| Detector.Evaluate | src/app.js:131-153 | the requests of both blocks, Personal first; characterised by `EvaluateShape` and `EvaluateComplete` |
| Detector.EvaluateShape | src/app.js:131-153 | at most two requests, each equal to the verdict on its own stream, and Personal first when there are two |
| Detector.EvaluateComplete | src/app.js:131-153 | a stream has a request among the results exactly when it qualifies |
| Detector.Detect | src/app.js:106 | the evaluation behind the two-signal gate; `GateHidesNothing` shows the gate loses nothing |
| Detector.GateHidesNothing | src/app.js:106 | the two-signal gate never suppresses a request that the streams would have produced |
| Generator.ReplyText | src/app.js:62-70 | the text taken from a parsed reply; characterised by `AnswerRoundTrip`, `MalformedGivesFallback` and `OnlyFirstPartMatters` |
| Generator.SolutionText | src/app.js:62-74 | the solution for either outcome of the request; an exception is covered by `FailureGivesErrorText` |
| Generator.MalformedGivesFallback | src/app.js:62-70 | a missing or empty candidate list, a missing content, or missing or empty parts give the fixed fallback sentence |
| Generator.OnlyFirstPartMatters | src/app.js:62-66 | for a well-shaped reply the result is the first part's text, possibly absent, whatever other candidates and parts follow |
| Generator.AnswerRoundTrip | src/app.js:62-66 | the text the service generated is handed back unchanged, even an empty one |
| Generator.FailureGivesErrorText | src/app.js:71-74 | an exception gives the fixed error sentence, which differs from the fallback sentence |
| Journal.Records | src/app.js:133-140 | the entries written for a list of requests, one per request |
| Journal.RecordsPointwise | src/app.js:133-140 | the entry for each request carries that request's category and the solution generated for its own pair |
| Journal.FailedGenerationRecordsError | src/app.js:71-74 | a request whose generation raises is still written, with the fixed error sentence as its solution |
| Journal.Written | src/app.js:136-152 | the requests whose entries reach the history: the longest prefix whose solutions are present; when it stops short, the next request's solution is missing |
| Journal.Attempted | src/app.js:139-152 | the requests whose notice is shown: the written ones and, when the writes stop short, the one whose write is refused |
| Journal.AttemptedExtendsWritten | src/app.js:139-152 | the attempted requests are all of them when every write succeeds, and otherwise the written prefix plus the one refused request |
| Journal.WrittenConcat | src/app.js:131-153 | the second block writes only when the first block wrote all of its entries |
| Journal.AttemptedConcat | src/app.js:131-153 | the second block shows its notice only when the first block wrote all of its entries |
| Journal.WrittenEntriesHaveText | src/app.js:136-140 | every entry that reaches the history has a solution text |
| Journal.RecordsConcat | src/app.js:131-153 | the history entries of consecutive requests are appended in order |
| Journal.FinalStatus | src/app.js:139-151 | the status line after showing the notices of a list of requests; `FinalStatusConcat` composes it across blocks |
| Journal.FinalStatusConcat | src/app.js:139-151 | the status after two blocks is the second block's status applied to the first block's status |
| Journal.App.constructor | src/app.js:18-28 | the initial state: no user, an empty form with category Personal, not syncing and a blank status, over whatever signals and history the user's collections already hold |
| Journal.App.AddSignal | src/app.js:161-181 | the signal is added exactly when there is a user, the text does not trim to empty and the write succeeds; then the store gains the form's signal and the form resets; otherwise the store and the form are unchanged; the sync state never changes |
| Journal.App.CheckSynchronization | src/app.js:106-108 | given the documents the signal collection holds, with at least two signals the flag is raised and the detecting line shown; otherwise nothing changes |
| Journal.App.Synchronize | src/app.js:132-141 | a qualifying stream shows its notice and then writes its history entry with the solution for its pair; a missing solution text makes the write fail and the block report it; a non-qualifying stream changes nothing |
| Journal.App.RunBlocks | src/app.js:131-154 | the Personal block and then the Financiero block: the history gains the written prefix of their requests, the status is that of the last attempted request, and the flag is lowered only when every write succeeded; the store and the form are unchanged |
| Journal.App.RunSynchronization | src/app.js:109-155 | for a snapshot of at least two signals, over its evaluation: the history gains the entries of its written prefix in order, the status ends on the last attempted request's notice, the flag is lowered only when every write succeeded, and the store and the form are unchanged |
| Scenarios.UpperCaseFeelingMatches | src/app.js:126-128 | "CALMA total" in the feeling carries the expansion keyword "calma" |
| Scenarios.PersonalPairSynchronizes | src/app.js:132-141 | "esto me da miedo" followed by "hoy sentí una gran resonancia" with feeling "calma" synchronizes the Personal stream, and only it |
| Scenarios.OrderMatters | src/app.js:132 | the same two signals in the opposite order do not synchronize |
| Scenarios.SingleEntryDoesNothing | src/app.js:106 | a journal of one signal, even a contraction, produces nothing |
| Scenarios.ExpansionKeywordInTextOnly | src/app.js:124-129 | "tensión" followed by "resonancia y seguridad" with no feeling does not synchronize |
| Scenarios.FinancialPairSynchronizes | src/app.js:144-153 | "tensión" followed by "gran resonancia" with feeling "lleno" synchronizes the Financiero stream, and only it |
| Scenarios.BothStreamsSynchronize | src/app.js:131-153 | two interleaved qualifying pairs produce both requests, Personal first |

## Left out

- Firebase initialisation, authentication and persistence are not modelled. The store is the multiset `App.stored`, and the constructor takes whatever the user's collections already hold. A signal write is the `writeSucceeds` parameter of `AddSignal`. Server timestamps are not modelled.
- Document order: the signals listener has no ordering, so the store delivers documents in document-id order, not in the order they were written. `CheckSynchronization` and `RunSynchronization` take the snapshot as a sequence in whatever order it arrives. "First" and "last" mean first and last in that order.
- The request to the language model and its prompt are not modelled. `RunSynchronization` takes the service's behaviour as the `generate` parameter.
- The two-second timer and its cancellation are not modelled. `RunSynchronization` is the callback itself. The cleanup function is discarded by the listener, so nothing is ever cancelled.
- Journal.App.RunSynchronization: the timer callback is modelled as one atomic step. In the source it suspends at every `await` (src/app.js:133, 140, 145 and 152) and nothing cancels it, so callbacks of later snapshots and `checkSynchronization` can run in between. Overlapping callbacks can then interleave their history entries and status updates, and a later check can show the detecting line and raise the flag again before an earlier callback lowers it. The model does not capture that. A history write refused for a missing solution text is modelled; a write that fails for another reason, such as the network or permissions, is not. A failed write aborts the callback and leaves the syncing flag raised, and a failed Personal write also skips the Financiero block.
- The displayed history list and its sort by timestamp are not modelled. `syncHistory` is the history collection in the order of writing; because the callback is modelled as one step, the entries of one callback are never interleaved with those of another.
- `handleClearSignals`, the loading flag and all rendering are not modelled, because they are persistence and UI.
- Strings.Lower: lower-cases ASCII A-Z and the Latin-1 capitals U+00C0..U+00DE, except U+00D7. Other characters are left unchanged. The full Unicode case mapping, including characters whose lower-case form is longer, is not modelled. All keywords lie inside the modelled range.
- A reply whose candidate list or parts hold `null`, or whose first part's text is not a string, is not modelled. Fields of the reply are either present with their expected type or missing.
- Repeated evaluation of the same collection, which emits the same events again, is not modelled. It is a property of the listener rather than of the rule.
