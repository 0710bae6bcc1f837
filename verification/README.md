# Verified model of the 9router proxy core

9router is a gateway between clients that speak one LLM protocol and upstreams that speak others. This
project models the parts of it that are hard to get right by reading: the translation of a chunk stream
into Claude events, the binary codecs, the recursive schema cleaner, the combo router with its locks and
rotation, the panel collector of fusion combos, the usage accounting, and the incremental text renderers.
Every module states what its component does as a function on values, shows that the step-by-step code
computes that function, and proves what the function is for.

`dafny verify dfyconfig.toml` checks everything.

## The modules

| module | component | what is proved about it |
|---|---|---|
| ClaudeStream, StreamProtocol | the OpenAI-to-Claude stream session | an independent acceptor of Claude event streams, and exactly which chunk streams it accepts |
| GeminiChunks, GeminiAnswers | the Gemini chunk translator that feeds it | exactly which streams of Gemini chunks come out well formed, and what a Claude client reads of any of them |
| Aggregation, ToolFragments, StreamAgreement, StreamTools, StreamBlocks | the non-streaming road to the same message | exactly when a streaming and a non-streaming client get the same reply, block by block |
| Protobuf, GrpcWeb, CompletionChunk | the Windsurf wire format | round trips at each layer, independence of how bytes are cut into reads, and both layers together |
| EventStream | AWS EventStream frames | round trip of any list of frames |
| GeminiSchema | the JSON-schema cleaner | termination on every tree, what the result looks like, what gets lost |
| ComboFlatten | expansion of combos that may refer to each other in cycles | exactly the reachable leaves; nesting can be written out without changing the result |
| Backoff | error classification and the lock store | closed forms of a connection's level and of every model's lock over whole runs |
| ComboFallback | the combo loop | what it never does, and that it tries everything, in every run in an environment that answers as it likes |
| FusionPanel | quorum, grace and timeout collection | a concurrent protocol, under every interleaving |
| StickyRotation | combo rotation with turn awareness | closed form and fairness |
| ToolRepair | repair of a message list | every call answered, nothing else changed, when a second repair is a no-op |
| DailyUsage, InFlight | accounting | all breakdowns add up; counters equal the requests in flight |
| TraeText, TraeAgreement | the renderer of cumulative thoughts | exactly when the streamed text is the answer |
| Compress | shortened tool results | what is kept and what the marker says |

Prelude holds shared helpers. Two things are modelled the same way everywhere: a Go `range` over a map is
an order the caller does not choose (`RangeOrder`), and an error return is a value.

## What the proofs say about the code

Several intended properties hold only under a condition. The code is modelled as it is, and the condition is
proved to be exact:

- A Claude stream is well formed if and only if it has a finish chunk, no tool index is opened by two
  id-carrying fragments up to the first one, and every chunk after it is silent (`WellFormedIff`). A second
  finish breaks it (`TwoFinishes`). A Gemini stream, in however many chunks, comes out well formed if and only if
  it has a finish, makes at most one function call up to it and says nothing behind it
  (`GeminiStreamWellFormedIff`, `TwoGeminiCalls`).
- When no two tool indices share an id, a streaming and a non-streaming client get the same reply if and only if
  the upstream sends reasoning, text and tool calls in that order; no chunk carries its reasoning only in the
  `reasoning` field; every tool index gets one id, in the order in which the indices first appear, and with it its
  whole name; every tool index is given arguments; and what the sanitizer makes of them is JSON
  (`StreamingAgreesIff`; `RepliesAgreeIff` is the same for shared ids). A call cut off in the middle is streamed to
  one client and an error for the other (`TruncatedCall`); a name that comes behind its id reaches only one
  (`LateName`; also `LateReasoning`, `HiddenReasoning`, `CallWithoutArguments`).
- The calls of a Gemini answer share index 0, so the client gets a tool block for each, the last one with the
  arguments of all of them and the others with none; a single call comes through whole (`GeminiToolsAre`). Whatever
  tool is called, the message ends with `end_turn`, or `max_tokens` at the limit (`GeminiEnds`).
- A panel whose calls all finish before any timer returns every call's outcome if and only if each value can be
  received behind its sending (`AllAnswersArriveIff`).
- An EventStream frame cut short within its first twelve bytes passes for the end of the stream; anywhere later it is
  an error (`CutShort`).
- `anyOf` survives the schema cleaner if and only if the chosen `oneOf` branch brings one (`AnyOfSurvives`); an
  enum stays unconverted if and only if a hoisted branch brings it (`EnumStays`); an object can end with properties
  and no type (`PropertiesWithoutType`); a required property stays if and only if its name is not one that is
  stripped or consumed (`StrippedPropertyIsLost`, `RequiredIsLost`). No property is invented if and only if some
  name stays and one called `properties`, if there is one, stands beside one called `type`
  (`StrippedNamesGiveWay`, `PropertiesMakeType`).
- The usage loop of a Windsurf chunk returns when every length field skips forward. The first that does not
  panics if it goes before the start and makes the loop endless if it goes back to a field already read
  (`LengthsDecide`, `UsageNeedNotEnd`). The three outcomes are those of the loop's own turns (`UsageEndsIff`).
- A second repair of the message list changes nothing if and only if every tool call has an id
  (`EmptyIdPadsAgain`).
- A stray finish is harmless if and only if no running request has its key (`StrayFinishUncounts`).
- The Trae text is faithful throughout if and only if every item is idle, new, or fits: from its first place on,
  the text with its old thought is a prefix of the text with its new one. For items listed once that means a
  thought may only grow, and with text behind it only by what that text repeats. In the end the answers agree if
  and only if every new item's thought, and of every item that grew the end of its thought and the text behind it,
  stands in the finished answer where it was sent (`AnswersAgreeOnceIff`, `LateGrowthDiffers`,
  `AgreesOnlyInTheEnd`). An item whose first thought is empty is listed again, and its text appears twice
  (`EmptyThoughtDoublesText`). The comment above `traeTextState` says pieces are emitted only for the delta; the
  code does so by length only.
- Cutting a git diff, git log or tree twice is cutting it once if and only if at most one line was dropped.

## Model

| member | source | states |
|---|---|---|
| ClaudeStream.StreamSession.StopThinkingBlock | internal/translator/response.go:85-94 | the object does what the stage function says: stop the open thinking block, else nothing |
| ClaudeStream.StreamSession.StopTextBlock | internal/translator/response.go:96-106 | the same for the text block and its closed flag |
| ClaudeStream.StreamSession.EmitReasoning | internal/translator/response.go:404-429 | reasoning closes text, opens a thinking block when none is open, and adds a delta |
| ClaudeStream.StreamSession.EmitContent | internal/translator/response.go:431-456 | content closes thinking, opens a text block when none is open, and adds a delta |
| ClaudeStream.StreamSession.EmitTool | internal/translator/response.go:459-493 | an id opens a tool block and overwrites the slot; arguments are only buffered |
| ClaudeStream.StreamSession.EmitTools | internal/translator/response.go:458-493 | the loop over the fragments of a chunk |
| ClaudeStream.StreamSession.CloseToolCalls | internal/translator/response.go:499-514 | for every registered tool, in some order, its sanitized arguments and its stop |
| ClaudeStream.StreamSession.EmitMessageEnd | internal/translator/response.go:515-544 | message_delta with the stop reason that goes with the finish reason ("max_tokens" for "length", "tool_use" for "tool_calls", else "end_turn") and the usage, then message_stop |
| ClaudeStream.StreamSession.EmitFinish | internal/translator/response.go:495-548 | the whole finish step |
| ClaudeStream.StreamSession.EmitBody | internal/translator/response.go:346-493 | the whole chunk before the finish step |
| ClaudeStream.StreamSession.Translate | internal/translator/response.go:317-555 | one call on the session's state is one step of the specification, including zero-choice chunks before the first message |
| StreamProtocol.WellFormedBalances | internal/translator/response.go:367-548 | an accepted stream has message_start first, message_delta and message_stop last, starts blocks in the order 0, 1, 2, ... and stops each exactly once |
| StreamProtocol.TranslateStream | internal/translator/response.go:260-555 | feeding any chunks to a session yields a run of the specification |
| StreamProtocol.OpenRunIsSafe | internal/translator/response.go:317-493 | while no finish reason has come, whatever the upstream sends, no event the client has seen is wrong |
| StreamProtocol.FinishedRunWellFormedIff | internal/translator/response.go:464-514 | a stream ending with its first finish chunk is well formed if and only if no tool index was opened twice |
| StreamProtocol.WellFormedIff | internal/translator/response.go:317-548 | any stream is well formed if and only if it has a finish, no tool index was opened twice up to the first one, and only silent chunks follow |
| StreamProtocol.SilentIff | internal/translator/response.go:369-514 | once the message has begun a chunk adds no event if and only if it has no reasoning, text, opening or finish |
| StreamProtocol.TwoFinishes | internal/translator/response.go:495-548 | a second finish makes the stream malformed |
| StreamProtocol.SidecarsAreSilent | internal/translator/response.go:320-326 | zero-choice chunks after the finish add no event, so the verdict covers the whole stream |
| GeminiChunks.TranslateChunk | internal/translator/gemini.go:499-670 | one Gemini chunk becomes the role chunk, a chunk per part, the finish in its own chunk, or a usage chunk |
| GeminiChunks.TranslateChunks | internal/handlers/chat/gemini_handler.go:341-385 | the callback fed with Gemini chunks one by one, the role going ahead of the first that says something |
| GeminiChunks.GeminiStreamWellFormedIff | internal/handlers/chat/gemini_handler.go:341-385 | a stream of any number of Gemini chunks is well formed for a Claude client if and only if it has a finish, at most one call up to the first one, and only mute chunks behind it |
| GeminiChunks.TwoGeminiCalls | internal/translator/gemini.go:555-578 | the smallest failing stream: two chunks with a call each, both at index 0, and the finish |
| GeminiAnswers.GeminiProseIs | internal/translator/gemini.go:538-578 | on every Gemini stream the Claude client's text is that of all parts that are not thoughts, its thinking that of those that are, in order, and each call is one fragment at index 0 |
| GeminiAnswers.GeminiEnds | internal/translator/gemini.go:596-652 | the client is told "max_tokens" if and only if Gemini stopped at MAX_TOKENS, else "end_turn", even when a tool is called; and the last positive counts of those Gemini chunks that pass them on: finishing ones, and once the answer has begun those that say nothing else |
| GeminiAnswers.RoleGoesFirst | internal/translator/gemini.go:510-536 | the role goes ahead of the first Gemini chunk that says anything or gives counts; without one nothing comes out |
| GeminiAnswers.GeminiToolsAre | internal/translator/gemini.go:555-578 | one tool block per call, in order; all share index 0, so the last is given the arguments of all and the others none; a single call gets its own |
| Aggregation.SseToOpenAI | internal/proxy/executor/codebuddy.go:89-117 | an error payload takes precedence, no chunk means not SSE, otherwise the aggregated message |
| Aggregation.CollectedIs | internal/proxy/executor/codebuddy.go:89-117 | an error if and only if the last error payload has a detail, and then with that detail; without one not SSE if and only if there is no chunk |
| Aggregation.PiecesInOrder | internal/proxy/executor/codebuddy.go:89-117 | no chunk of the body is lost or moved |
| Aggregation.AggregateChunks | internal/proxy/executor/codebuddy.go:119-194 | the chunk loop computes the fold: text, reasoning_content, tool entries in order of first appearance, last finish reason |
| Aggregation.MergeFragments | internal/proxy/executor/codebuddy.go:148-175 | fragments of one index are merged into one entry |
| Aggregation.TranslateOpenAIToClaude | internal/translator/response.go:109-245 | without choices, and if and only if some tool input is not JSON, an error; otherwise the content, and "max_tokens" if and only if the finish reason is "length", "tool_use" if and only if it is "tool_calls", else "end_turn" |
| Aggregation.TranslateContent | internal/translator/response.go:141-187 | thinking, text, then a block per tool call, each only when there is something |
| StreamAgreement.TextAgrees | internal/translator/response.go:431-456 | on every run the streamed text is the aggregated text |
| StreamAgreement.ThinkingAgreesIff | internal/proxy/executor/codebuddy.go:136-141 | streamed thinking is the aggregated reasoning if and only if no chunk keeps its reasoning in the field the aggregator does not read |
| ToolFragments.SameToolsIff | internal/translator/response.go:164-183 | the tool blocks two clients get from the same fragments are equal if and only if no index is opened twice and the calls, as announced in order of opening, are those aggregated in order of first appearance |
| ToolFragments.InTurnIff | internal/proxy/executor/codebuddy.go:148-175 | with unique ids that is: one id for each index, in the order of first appearance, its whole name with it, and arguments |
| ToolFragments.UnindexedIsZero | internal/proxy/executor/codebuddy.go:148-155 | a fragment without an index is one of index 0, on both roads |
| ToolFragments.NameIsShown | internal/translator/response.go:466-474 | a tool is shown under its function's name, else its id, without the proxy's prefix |
| StreamTools.CallTells | internal/proxy/executor/codebuddy.go:148-175 | the j-th aggregated call has the last id, all the name and all the arguments sent for the j-th index seen, on any stream |
| StreamTools.OpenRunShows | internal/translator/response.go:458-493 | up to the finish step every id has opened a block, the state knows the last one of each index and buffers its arguments, and none has been sent |
| StreamTools.StreamedToolsAre | internal/translator/response.go:499-514 | at the end each opened block holds its index's sanitized arguments, or nothing if a later id took the index over |
| StreamTools.ToolsAgreeIff | internal/translator/response.go:164-183 | on any finished stream the tool blocks are equal if and only if the calls match |
| StreamTools.ReplyExistsIff | internal/translator/response.go:164-245 | the non-streaming road answers if and only if the sanitized arguments of every tool index are JSON |
| StreamTools.PartsAgreeIff | internal/translator/response.go:141-183 | kind by kind (all thinking, all text, the tools) both roads give the same content if and only if no reasoning hides and the calls match |
| StreamBlocks.OrderShows | internal/translator/response.go:404-493 | an orderly stream is laid out as one thinking block, one text block and the tools; any other has a block out of place for good |
| StreamBlocks.BlocksAgreeIff | internal/translator/response.go:141-183 | both roads give the same list of blocks if and only if, besides, reasoning, text and tool calls come in that order |
| StreamBlocks.RepliesAgreeIff | internal/translator/response.go:109-245 | the non-streaming road returns the streaming client's reply if and only if prose comes in turn and unhidden, the calls match and their arguments are JSON |
| StreamBlocks.StreamingAgreesIff | internal/translator/response.go:109-245 | with unique ids the condition is told by the upstream's chunks alone: prose in turn and unhidden, one id per index in order with its whole name, arguments, and these JSON |
| StreamBlocks.LateName | internal/translator/response.go:464-486 | a name that comes behind its id: the streaming client is told the id |
| StreamBlocks.TruncatedCall | internal/translator/response.go:170-175 | a call cut off by the length limit: streamed to one client, an error for the other |
| StreamBlocks.CallWithoutArguments | internal/translator/response.go:171-176 | a call without arguments: an empty string for one client, an empty object for the other |
| StreamBlocks.HiddenReasoning | internal/proxy/executor/codebuddy.go:139-141 | reasoning in the `reasoning` field reaches the streaming client only |
| StreamBlocks.LateReasoning | internal/translator/response.go:143-161 | reasoning after text: the two clients get the blocks in different orders |
| StreamAgreement.StopReasonAgrees | internal/translator/response.go:515-541 | both roads report the same stop reason |
| StreamAgreement.StopReasonIs | internal/translator/response.go:515-541 | and it is "max_tokens" if and only if the last chunk's finish reason is "length", "tool_use" if and only if it is "tool_calls", and "end_turn" otherwise |
| StreamAgreement.NoFinishIsStop | internal/proxy/executor/codebuddy.go:123-146 | a stream without a finish is aggregated as one that stopped by itself |
| StreamAgreement.UsageIsReported | internal/translator/response.go:346-365 | the finish step reports the last positive token counts, those before the first choice being ignored |
| Protobuf.EncodeVarint | internal/proxy/executor/windsurf.go:97-105 | the shift loop computes the base-128 digits |
| Protobuf.DecodeVarint | internal/proxy/executor/windsurf.go:171-184 | the loop computes the reader on any bytes, malformed ones included |
| Protobuf.ReadVarint | internal/proxy/executor/windsurf.go:171-184 | the offset moves forward and never passes the end |
| Protobuf.VarintRoundTrip | internal/proxy/executor/windsurf.go:97-184 | every 64-bit value is read back, wherever it stands, and the reader stops at its end |
| Protobuf.LowBitsFirst | internal/proxy/executor/windsurf.go:97-105 | 300 is AC 02 |
| Protobuf.VarintLength | internal/proxy/executor/windsurf.go:97-105 | a value takes at most n bytes if and only if it has at most 7 n bits |
| Protobuf.DecodeStringField | internal/proxy/executor/windsurf.go:188-217 | the field walk on any bytes computes the specification |
| Protobuf.FieldStands | internal/proxy/executor/windsurf.go:107-119 | an encoded field reads as its tag, length and payload in any surroundings |
| Protobuf.StringFieldRoundTrip | internal/proxy/executor/windsurf.go:107-217 | of any message of fields of the four wire types the first payload with the target number comes back, or the empty string |
| CompletionChunk.DecodeUsage | internal/proxy/executor/windsurf.go:246-270 | the usage loop with Go's int arithmetic: it returns, indexes out of range, or loops forever |
| CompletionChunk.LengthsDecide | internal/proxy/executor/windsurf.go:246-270 | told by the lengths in the payload: if all skip forward the loop returns; the first that does not panics when it goes before the start and loops forever when it goes back to a field already read |
| CompletionChunk.UsageEndsIff | internal/proxy/executor/windsurf.go:246-270 | the outcome told turn by turn: some turn ends the loop, some turn is out of range, or no turn ever is either |
| CompletionChunk.UsageNeedNotEnd | internal/proxy/executor/windsurf.go:262-265 | a payload that loops and one that indexes out of range |
| CompletionChunk.DecodeDoneChunk | internal/proxy/executor/windsurf.go:220-271 | the last field 1 is the usage message |
| CompletionChunk.DecodeCompletionChunk | internal/proxy/executor/windsurf.go:275-316 | the walk over the oneof on any bytes; which field means what is told by TextRoundTrip, UsageRoundTrip, ErrorRoundTrip and ChunkBytes |
| CompletionChunk.DoneRoundTrip | internal/proxy/executor/windsurf.go:220-271 | the numbers of the encoded usage message come back, the last of a kind winning, up to a field of fixed length |
| CompletionChunk.ChunkRoundTrip | internal/proxy/executor/windsurf.go:275-316 | of any message the first field that decides is the chunk |
| CompletionChunk.TextRoundTrip | internal/proxy/executor/windsurf.go:290-293 | field 1: a text survives both nested messages unless it is empty |
| CompletionChunk.UsageRoundTrip | internal/proxy/executor/windsurf.go:294-296 | field 3: the prompt tokens of its field 1 and the completion tokens of field 2 come back, as Go's int |
| CompletionChunk.ErrorRoundTrip | internal/proxy/executor/windsurf.go:297-302 | field 4: the message comes back, or the fixed one when it is empty |
| CompletionChunk.ChunkBytes | internal/proxy/executor/windsurf.go:275-316 | the three byte by byte |
| CompletionChunk.GatherTurn | internal/proxy/executor/windsurf.go:496-517 | the frame callback of the non-streaming answer is a fold over frames, cut short by a chunk whose decoder does not return |
| CompletionChunk.AnswerTurn | internal/proxy/executor/windsurf.go:496-521 | reading the body in any cuts and gathering its frames gives the turn the bytes say; for what a server says see AnswerArrives |
| CompletionChunk.AnswerArrives | internal/proxy/executor/windsurf.go:496-521 | whatever a server says in frames (texts, counts, errors, trailers, frames of other kinds) arrives, however the bytes are cut into reads: all its text in order, the last counts, the last error |
| CompletionChunk.OrdinaryAnswer | internal/proxy/executor/windsurf.go:496-521 | texts, the counts and a trailer are the text joined, those counts, and what the trailer says; an error in place of the counts is the error |
| GrpcWeb.DrainAppend | internal/proxy/executor/windsurf.go:598-612 | draining a prefix and then the rest is draining the whole |
| GrpcWeb.FramesRoundTrip | internal/proxy/executor/windsurf.go:150-159 | concatenated frames, of any flags, drain to the original ones with nothing left |
| GrpcWeb.WrapIsFrame | internal/proxy/executor/windsurf.go:150-159 | what the frame writer makes is a frame with flag 0, and the length has its high byte first |
| GrpcWeb.DrainFrames | internal/proxy/executor/windsurf.go:598-612 | the loop delivers the complete frames in order until told to stop |
| GrpcWeb.ReadFrames | internal/proxy/executor/windsurf.go:566-594 | the frames delivered depend on the bytes only, at every kind of ending; the final drain adds nothing |
| GrpcWeb.SameBytesSameFrames | internal/proxy/executor/windsurf.go:566-594 | two ways of cutting the same bytes deliver the same frames |
| EventStream.EventStreamReader.ReadFrame | internal/providers/eventstream.go:29-106 | one call: outcome, headers, payload and what is left unread, with every slice in range |
| EventStream.ReadHeaders | internal/providers/eventstream.go:63-91 | the header loop on any bytes; it stops where a length runs past the end |
| EventStream.AsMapIsExact | internal/providers/eventstream.go:87-89 | with distinct names the header map holds exactly the headers sent that are of kind 3, 6 or 7 |
| EventStream.FrameReadBack | internal/providers/eventstream.go:29-106 | a frame is read back and exactly its length is consumed |
| EventStream.PreludeDecides | internal/providers/eventstream.go:29-61 | for any two lengths and whatever follows: impossible lengths are an error that leaves the rest unread, a body cut short is one that uses it up, otherwise there is a frame of exactly that length |
| EventStream.CutShort | internal/providers/eventstream.go:29-61 | a frame cut short anywhere: within the prelude that passes for the end of the stream, later it is an error |
| EventStream.StreamRoundTrip | internal/providers/eventstream.go:29-106 | repeated reads of a list of frames return exactly those frames and then the end |
| GeminiSchema.GeminiRulesAreLawful | internal/translator/schema.go:14-46 | none of the keys the cleaner itself handles is on its own list |
| GeminiSchema.PrepareObject | internal/translator/schema.go:35-179 | the in-place steps on one object, in the source's order, make the prepared object |
| GeminiSchema.CleanGeminiSchema | internal/translator/schema.go:9-193 | the recursion terminates on every tree although it inserts objects and hoists branches, and computes the cleaned schema |
| GeminiSchema.ChildDescends | internal/translator/schema.go:156-193 | every visited child is smaller, inserted placeholders ranking last |
| GeminiSchema.CleanIsTidy | internal/translator/schema.go:9-193 | afterwards no visited object is empty, holds a stripped key or oneOf, or is an "object" without properties |
| GeminiSchema.AnyOfSurvivesIff | internal/translator/schema.go:82-103 | anyOf survives if and only if the chosen oneOf branch carries one |
| GeminiSchema.PropertiesWithoutTypeIff | internal/translator/schema.go:48-103 | properties end without a type if and only if a hoisted branch brings them and nothing brings a type |
| GeminiSchema.EnumUnconvertedIff | internal/translator/schema.go:54-103 | an enum ends as the list it came as if and only if a hoisted branch brings it |
| GeminiSchema.EnumNamesAt | internal/translator/schema.go:55-79 | an enum keeps its items one by one, strings as they are |
| GeminiSchema.FirstIsTaken | internal/translator/schema.go:82-121 | the first branch that is an object and not of type "null" is hoisted, the first type that is a string and not "null" is kept |
| GeminiSchema.PrepareKeepsTheRest | internal/translator/schema.go:35-179 | of what an object and its hoisted branches give, the last to have a key deciding, nothing else is dropped or rewritten |
| GeminiSchema.TypeIsExact | internal/translator/schema.go:48-121 | what the type ends as: the one given, the first useful one of a list or "string", "object" beside properties, "string" beside an enum |
| GeminiSchema.EnumIsExact | internal/translator/schema.go:54-79 | an object's own enum ends as a list of as many strings, each item's own |
| GeminiSchema.RequiredNamesProperties | internal/translator/schema.go:123-165 | before the children are cleaned `required` names properties only |
| GeminiSchema.RequiredIsExact | internal/translator/schema.go:123-179 | `required` ends as the list of exactly those strings of the incoming list that name a property; when there is none it goes away, or is the placeholder's |
| GeminiSchema.NamesInOrder | internal/translator/schema.go:129-137 | they stand in the order of the incoming list, and none is left out |
| GeminiSchema.NamesCounted | internal/translator/schema.go:129-137 | each as often as it was listed |
| GeminiSchema.RequiredPropertyStaysIff | internal/translator/schema.go:181-184 | afterwards a required property whose name is not anyOf, oneOf or required is there if and only if its name is not stripped |
| GeminiSchema.PropertyNamedLikeKeywordIsLost | internal/translator/schema.go:181-184 | a property named anyOf, oneOf or required is lost; at most a list of names, or the anyOf of a oneOf list, stands in its place |
| GeminiSchema.PropertyNamesAre | internal/translator/schema.go:9-193 | the names of a cleaned properties map: those that stay, a type beside one called properties, or the placeholder's fields |
| GeminiSchema.PropertiesAddedIff | internal/translator/schema.go:181-184 | no property is invented if and only if some name stays and one called properties is not without one called type |
| GeminiSchema.NoPropertiesGiven | internal/translator/schema.go:148-179 | what stands for properties when none are given |
| GeminiSchema.EmptySchemaIsFilled | internal/translator/schema.go:168-179 | what an empty schema becomes, written out |
| GeminiSchema.EnumStays | internal/translator/schema.go:54-103 | an anyOf branch with an enum of numbers: it stays one, without a type |
| GeminiSchema.StrippedNamesGiveWay | internal/translator/schema.go:173-184 | all names stripped: type, properties and required appear as properties |
| GeminiSchema.PropertiesMakeType | internal/translator/schema.go:48-52 | a property called properties: one called type appears |
| GeminiSchema.AnyOfSurvives | internal/translator/schema.go:82-100 | a oneOf branch with an anyOf: it stays |
| GeminiSchema.PropertiesWithoutType | internal/translator/schema.go:48-100 | an untyped anyOf branch with properties: they end without a type |
| GeminiSchema.StrippedPropertyIsLost | internal/translator/schema.go:181-184 | a required property with a stripped name is lost and still required |
| GeminiSchema.TitleIsStripped | internal/translator/schema.go:28 | such as one called title |
| GeminiSchema.VendorIsStripped | internal/translator/schema.go:40-45 | or one whose name begins with "x-" and goes on |
| GeminiSchema.RequiredIsLost | internal/translator/schema.go:123-146 | a property called required is lost |
| ComboFlatten.ComboFlattener.WalkList | internal/handlers/chat/resolution.go:97-129 | the recursive closure over shared `out` and `seen` terminates on cyclic combos and leaves `seen` as it was |
| ComboFlatten.ComboFlattener.FlattenComboModels | internal/handlers/chat/resolution.go:94-133 | the flattened list is the specified walk, and the error case is the empty result |
| ComboFlatten.WalkSound | internal/handlers/chat/resolution.go:97-129 | every output is a leaf reached through a chain of combo references |
| ComboFlatten.WalkComplete | internal/handlers/chat/resolution.go:97-129 | every leaf on a path that avoids the combos being expanded is output |
| ComboFlatten.WalkNoRepeats | internal/handlers/chat/resolution.go:120-122 | no two adjacent outputs are equal |
| ComboFlatten.FlattenExact | internal/handlers/chat/resolution.go:94-133 | the outputs are exactly the leaves reachable through combo references, cyclic ones included |
| ComboFlatten.OneAlias | internal/handlers/chat/resolution.go:115-122 | an alias stands for its target if and only if it has no slash, is no combo, and the target has one |
| ComboFlatten.OneName | internal/handlers/chat/resolution.go:99-114 | a combo stands for its models; a name with a slash is never looked up |
| ComboFlatten.InliningPreserves | internal/handlers/chat/resolution.go:97-129 | a combo that does not refer back to itself can be replaced by its own list, where it stands, order included |
| Backoff.ClassifyExact | internal/providers/errorclassify.go:76-124 | the ordered first-match scan amounts to two questions about status and text; backoff raises the level up to 15, the rest keeps it |
| Backoff.ContainsIs | internal/providers/errorclassify.go:76-124 | a phrase is found if and only if it stands somewhere in the text |
| Backoff.QuotaCooldownShape | internal/providers/errorclassify.go:60-64 | between 2 s and 5 min, monotone, at the cap from level 9 |
| Backoff.CooldownIsPositive | internal/providers/errorclassify.go:76-124 | every classification waits, so a retryable failure always locks |
| Backoff.LockStore.LockConnectionModel | internal/db/accounts.go:25-36 | one row's lock and level are set, nothing else moves |
| Backoff.LockStore.UnlockConnectionModel | internal/db/accounts.go:75-85 | the lock is removed and the level reset |
| Backoff.LockStore.IsProviderAvailable | internal/db/accounts.go:111-126 | true if and only if some active connection is not locked, or there are none |
| Backoff.LockStore.LockOnFailure | internal/handlers/chat/fallback.go:86-98 | classification at the stored level, lock time rounded up to seconds |
| Backoff.LockStore.RunAttempts | internal/handlers/chat/fallback.go:86-101 | over any run of attempts on a connection, whatever their models: the level is min(15, backoff failures since the last success), and every model is locked until what its last attempt says |
| Backoff.AttemptWaits | internal/handlers/chat/combo.go:772-778 | the n-th backoff failure since the last success waits min(2 s doubled n - 1 times, 5 min), every other retryable failure its fixed time |
| Backoff.CooldownClosedForm | internal/providers/errorclassify.go:60-101 | the n-th backoff failure in a row waits min(2 s doubled n - 1 times, 5 min) |
| Backoff.LockHonoursCooldown | internal/handlers/chat/combo.go:773-778 | with both roundings a lock holds for all but the last second of the cooldown and is over less than a second after it |
| ComboFallback.ComboRun.SelectConnection | internal/handlers/chat/connections.go:23-102 | the pinned connection, or the first listed one that is neither excluded nor seen locked; none if and only if all listed ones are excluded or seen locked, or the one to be taken cannot be read |
| ComboFallback.ComboRun.TryConnection | internal/handlers/chat/combo.go:394-484 | one round: no connection left, the chosen one seen locked and excluded, or one request sent; all excluded connections were seen locked or failed retryably in this pass |
| ComboFallback.ComboRun.LockRetryable | internal/handlers/chat/combo.go:768-783 | the failed connection is locked for the classified time, its level moved, and it goes on the exclusion list |
| ComboFallback.ComboRun.TryEntry | internal/handlers/chat/combo.go:394-489 | at most ten forwards, none to a locked connection; the first success ends it, and so does a client that has left; otherwise it ends after ten rounds, after one for a provider without accounts, or when no connection is left |
| ComboFallback.ComboRun.Pass | internal/handlers/chat/combo.go:379-490 | entries are visited in order, and unless one is served or the client leaves, all are: each was unresolved, had no available connection, or was gone through as TryEntry says |
| ComboFallback.ComboRun.Handle | internal/handlers/chat/combo.go:336-534 | over both passes: at most 2 * 10 * entries forwards, none to a locked connection, no unpinned reuse of a failed one within a pass; exactly the retryable failures lock; success is last and is what the client gets; an error only after a pass over the whole list, with the status of its last forward, 502 for a broken one, or 429 if a model was passed over; a second pass if and only if the first, of the whole list, saw a Retry-After that ends within eight seconds, and the timer goes off before the client leaves |
| ComboFallback.ComboRun.SendOnce | internal/handlers/chat/combo.go:422-484 | one forward: success, a client that has left (then nothing is locked or excluded), or a failure noted |
| ComboFallback.ComboRun.NoteFailure | internal/handlers/chat/combo.go:449-480 | lock and exclusion if retryable, the status as last error, 502 for an error that is not an upstream answer |
| FusionPanel.CollectPanel | internal/handlers/chat/combo_fusion.go:91-134 | for any schedule given from outside the select loop returns what the protocol returns on it, or still waits |
| FusionPanel.AllAnswersArriveIff | internal/handlers/chat/combo_fusion.go:116-133 | in a schedule without timers in which every call finishes once, everything settles if and only if every value sent can be received behind it, and then every call's own outcome is returned, whatever comes later |
| FusionPanel.PlayIsRun | internal/handlers/chat/combo_fusion.go:91-134 | what is played is a run of the protocol, so the results below hold of it |
| FusionPanel.CollectorIsFaithful | internal/handlers/chat/combo_fusion.go:91-134 | a slot is empty or holds that call's own outcome; an early return has the quorum or everything |
| FusionPanel.LateSenderNeverBlocks | internal/handlers/chat/combo_fusion.go:102-108 | a call that has not sent can always send, also after the return |
| FusionPanel.GraceNeedsQuorum | internal/handlers/chat/combo_fusion.go:121-128 | the grace timer can fire exactly while the collector waits and at least one answer, and the quorum of answers, is a success |
| FusionPanel.ReturnIsFinal | internal/handlers/chat/combo_fusion.go:116-133 | nothing that happens later changes what was returned |
| FusionPanel.RunsAreShort | internal/handlers/chat/combo_fusion.go:116-133 | every run has a bounded number of events |
| StickyRotation.ComboRotation.ApplyComboStrategy | internal/handlers/chat/combo.go:263-322 | state and list after one request under each strategy, the key of an unnamed combo and the limits included |
| StickyRotation.RotationIsCut | internal/handlers/chat/combo.go:309-314 | the result is the list cut in two and swapped; nothing is lost |
| StickyRotation.RunClosedForm | internal/handlers/chat/combo.go:293-311 | the state depends on the number of new turns only |
| StickyRotation.LeadClosedForm | internal/handlers/chat/combo.go:293-311 | new turn k leads with model (k / limit) mod n; a mid-turn request with that of the latest new turn |
| StickyRotation.ServeTurns | internal/handlers/chat/combo.go:263-322 | the object serves any run of requests with exactly these leads |
| StickyRotation.RotationIsFair | internal/handlers/chat/combo.go:293-311 | any limit * n consecutive new turns are led by each model exactly limit times |
| ToolRepair.FixMissingToolResponses | internal/translator/request.go:191-237 | the loop over a list that grows under it terminates and computes the repair |
| ToolRepair.RepairAnswersAll | internal/translator/request.go:191-237 | afterwards an unbroken run of tool messages answers every call |
| ToolRepair.RepairOnlyPads | internal/translator/request.go:218-233 | dropping the inserted placeholders gives the input back, in order |
| ToolRepair.MissingInOrder | internal/translator/request.go:207-216 | the placeholders are for exactly the calls without a response, in the order of the calls |
| ToolRepair.PlaceholdersAre | internal/translator/request.go:218-228 | one placeholder each, saying that no response was received |
| ToolRepair.RepairTwice | internal/translator/request.go:191-237 | with named calls a second repair changes nothing |
| ToolRepair.RepairIdempotentIff | internal/translator/request.go:191-237 | a second repair changes nothing if and only if no call has an empty id; otherwise it pads again |
| ToolRepair.EmptyIdPadsAgain | internal/translator/request.go:207-214 | one call without an id |
| DailyUsage.MaskAPIKey | internal/handlers/chat/usage.go:323-328 | "***" for up to eight characters, else the first four, "***" and the last four; never empty, so the fallback label is never used |
| DailyUsage.UsageStore.Upsert | internal/handlers/chat/usage.go:147-279 | one request is added to the totals and to one row of each breakdown |
| DailyUsage.UsageStore.UpsertAll | internal/handlers/chat/usage.go:147-279 | a day of requests |
| DailyUsage.OneRequest | internal/handlers/chat/usage.go:147-279 | the day after one request, every key and row written out |
| DailyUsage.BreakdownsAddUp | internal/handlers/chat/usage.go:147-269 | after any requests every breakdown sums to the totals, byAccount to the part with a connection |
| DailyUsage.RowIsExact | internal/handlers/chat/usage.go:166-252 | every row of every breakdown is what its own requests add up to |
| DailyUsage.TotalsAreExact | internal/handlers/chat/usage.go:156-164 | the totals are what all requests add up to |
| DailyUsage.LegacyAddsUp | internal/handlers/chat/usage.go:254-269 | legacy provider rows sum to the legacy totals and each is the sum of its model rows |
| DailyUsage.LegacyRowIsExact | internal/handlers/chat/usage.go:254-269 | every legacy provider row is what its requests add up to |
| DailyUsage.LegacyModelRowIsExact | internal/handlers/chat/usage.go:261-269 | and so is every model row under it |
| InFlight.Tracker.TrackPending | internal/usagetracker/tracker.go:84-132 | both counters and the error provider after one call |
| InFlight.Tracker.Serve | internal/usagetracker/tracker.go:84-132 | any interleaving of starts and finishes |
| InFlight.OneInFlight | internal/usagetracker/tracker.go:84-124 | the counters after one start, and after its finish, written out |
| InFlight.CountersAreExact | internal/usagetracker/tracker.go:97-124 | byModel[k] is the number in flight with key k, byAccount[c][k] the number on connection c; counts are positive, no inner map is empty |
| InFlight.ListedIffRunning | internal/usagetracker/tracker.go:97-124 | a key is listed if and only if such a request is in flight |
| InFlight.IdleIsEmpty | internal/usagetracker/tracker.go:97-124 | when nothing runs both maps are empty |
| InFlight.StrayFinishIsHarmlessIff | internal/usagetracker/tracker.go:97-124 | a finish without a start leaves the counters exact if and only if no running request has its key |
| InFlight.StrayFinishUncounts | internal/usagetracker/tracker.go:97-103 | a stray finish beside a running request with the same key |
| InFlight.Tracker.PushRecent | internal/usagetracker/tracker.go:135-147 | the new request comes first and the ring is cut to its capacity |
| InFlight.Tracker.PushAll | internal/usagetracker/tracker.go:135-147 | the ring holds the latest requests, newest first, at most 50 |
| TraeText.TextState.Render | internal/proxy/executor/trae.go:214-231 | the piece is what lies beyond the length sent, and the length sent is again that of the full text; the clamp is never needed |
| TraeText.TextState.RenderAll | internal/proxy/executor/trae.go:65-114 | the emitted pieces of a turn joined, and the non-streaming answer |
| TraeText.LengthsAgree | internal/proxy/executor/trae.go:224-230 | as many bytes are streamed as the full text has |
| TraeAgreement.AnswerIsFull | internal/proxy/executor/trae.go:214-241 | the answer read off the items: the longest thought of each, the latest of equals, in order of listing |
| TraeAgreement.StreamedIsFullIff | internal/proxy/executor/trae.go:214-231 | the client has the whole text at every moment if and only if every item is idle, new, or fits from its first place on |
| TraeAgreement.ListedOnceIff | internal/proxy/executor/trae.go:218-230 | for items listed once: if and only if thoughts only grow, and one with text behind it only by what that text repeats |
| TraeAgreement.StretchIs | internal/proxy/executor/trae.go:224-230 | what an item adds to the stream: the end of its new thought and the text behind it |
| TraeAgreement.AddsIs | internal/proxy/executor/trae.go:214-231 | what any item adds to the stream, by its id, its thought and its places |
| TraeAgreement.AnswersAgreeIff | internal/proxy/executor/trae.go:214-241 | in the end the streamed answer is the non-streaming one if and only if every new thought, and every listed item's growth from its first place on, stands in it |
| TraeAgreement.AnswersAgreeOnceIff | internal/proxy/executor/trae.go:214-241 | for items listed once: if and only if every new thought, and the end of every grown thought with the text behind it, stands in it |
| TraeAgreement.LateGrowthDiffers | internal/proxy/executor/trae.go:221-230 | three items after which the two answers differ |
| TraeAgreement.AgreesOnlyInTheEnd | internal/proxy/executor/trae.go:221-230 | and a fourth after which they agree again |
| TraeText.WinningExtendsIff | internal/proxy/executor/trae.go:221-223 | when a listed item that wins extends the text; for the last-listed one, when its thought extends its old one |
| TraeText.WrittenInTurnAgrees | internal/proxy/executor/trae.go:205-241 | items written one after another: both answers are the same text |
| TraeText.OrderIsDistinctIff | internal/proxy/executor/trae.go:218-223 | every item is listed once if and only if none comes back before its first text |
| TraeText.EmptyThoughtDoublesText | internal/proxy/executor/trae.go:218-223 | the smallest case where the answer repeats a thought |
| Compress.AppendBehindHead | internal/tokensaver/compress.go:216-219 | both appends, in the shared array where they fit and in a new one where not |
| Compress.SmartTruncate | internal/tokensaver/compress.go:211-220 | the appends leave exactly the first 120 lines, the marker with the true count, the last 60 |
| Compress.SmartTruncateText | internal/tokensaver/compress.go:211-220 | the same for the text, whose lines are those |
| Compress.TailIsSafeIff | internal/tokensaver/compress.go:216-219 | what those appends leave is head, marker and tail if and only if the marker does not land in the tail |
| Compress.CompressGrep | internal/tokensaver/compress.go:181-201 | the counting loop keeps the specified lines and its marker tells how many it dropped |
| Compress.CompressGrepText | internal/tokensaver/compress.go:181-201 | the same for the text |
| Compress.CompressGitDiff | internal/tokensaver/compress.go:165-171 | the first 100 lines and a marker with the number of the others |
| Compress.CompressGitLog | internal/tokensaver/compress.go:173-179 | the same at 200 lines |
| Compress.CompressTree | internal/tokensaver/compress.go:203-209 | and for trees |
| Compress.FirstTenAreKept | internal/tokensaver/compress.go:188-196 | of every file exactly the first ten lines are kept |
| Compress.FileIsBeforeColon | internal/tokensaver/compress.go:189-190 | the file of a line is what stands before its first colon, or the whole line |
| Compress.KeptInOrder | internal/tokensaver/compress.go:188-196 | the kept lines are in the order of the input |
| Compress.NothingDroppedIff | internal/tokensaver/compress.go:188-199 | nothing is dropped if and only if no file has more than ten lines |
| Compress.CutTwiceIff | internal/tokensaver/compress.go:165-179 | a second cut at the threshold is a no-op if and only if at most one line was dropped |
| Compress.SplitJoin | internal/tokensaver/compress.go:211-220 | splitting joined lines gives the lines back |

## Left out

- JSON parsing and printing: chunks, messages, schemas and usage days are decoded values; `sanitizeToolArgs` and the printing of an enum item are parameters.
- Rejoining a truncated JSON payload (internal/translator/response.go:286-307): it rests on the JSON library's error text.
- Aggregation.SseToOpenAI: ids, model and usage of the aggregated message.
- GeminiChunks.TranslateChunk: ids, models and cached tokens; the uncloaking of a name and the clock in a call id are given.
- Message ids, model names and timestamps of the streamed events, and usage beyond prompt and completion tokens.
- Session pruning and the mutex around the session map: one session is one object here.
- StreamBlocks.StreamingAgreesIff: up to the first finish; shared ids are the matter of RepliesAgreeIff.
- GeminiSchema.CleanGeminiSchema: maps are values, so two parts of a schema that share one Go map are not modelled; the decoded JSON it gets shares none.
- GeminiSchema.PropertiesAddedIff: takes every property to be a schema, that is an object or a boolean.
- EventStream.EventStreamReader.ReadFrame: read errors other than the end of input.
- EventStream.StreamRoundTrip: headers with a 16-bit length, which is the only layout the source reads; checksums are not checked by the source either.
- CompletionChunk.LengthsDecide: a backward skip into the middle of a field, from where the loop reads on.
- CompletionChunk.AnswerArrives: texts below 2^60 bytes whose frames fit the four length bytes; what a trailer says (`wsGRPCStatus`) is a parameter.
- ComboFallback.ComboRun.Handle: connection ids, locks by other requests, upstream answers, waits and cancellation are chosen by the environment; the mimo-free path, token refresh and writing the error response are not modelled.
- `handleAccountFallback` as a loop: it passes each connection as pinned, so lock avoidance is not claimed for it; only its lock and unlock steps are in Backoff.
- `handleMessagesComboFallback`: a twin of the loop modelled here.
- `ReorderByCapabilities`: a stable partition, an easy member.
- Backoff.ClassifyExact: the error text is taken lower-cased already.
- Backoff.LockStore.LockConnectionModel: SQL and JSON paths are a map from connection and model to expiry; the reset functions, which build unquoted paths, are not modelled.
- FusionPanel.CollectPanel: the Go select is a schedule given from outside, which need not bring the collector to an end; panics inside a call and the building of the judge prompt are not modelled.
- DailyUsage.UsageStore.Upsert: the label fields kept in each row, rounding of costs, JSON storage and the mutex; costs are real numbers.
- InFlight.Tracker.TrackPending: the time of the last error and the broadcast to subscribers.
- `CompressText`: which compressor a text gets is decided by regular expressions that are not modelled.
- `ScanStream` and `handleCodexStream`: their buffers are shared or never filled, so a model on values would prove what the code does not give.
- Provider tables, OAuth, TLS, process control, dashboards: plumbing.
