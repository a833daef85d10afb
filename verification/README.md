# nanollm, verified

nanollm is a reverse proxy for LLM APIs. This project models the parts of it that carry
algorithms and proves what they promise, for every input, every run and every interleaving:

- **The SSE transcript coalescer** (`sse_log.go`): a writer that takes arbitrary byte chunks,
  reassembles lines and events (sections 9.2.5 and 9.2.6 of the WHATWG HTML Living Standard,
  split on LF with CR trimmed, as the code does), holds one event back and merges runs of
  same-key deltas into it. Modules `MergeKeys`, `Merge`, `MergeLoops`, `Channels`, `MergeLaws`,
  `KeyTheorems`, `MergeTheorems`, `ChannelTheorems`, `SseWire`, `WireText`, `Coalescer`,
  `SseLogWriter`, `ChunkTheorems`, `SseTheorems`, `RunTheorems`; `SseSuffixes`, `SpilledWrites` and `SpillTheorems` for events too long to be held;
  `CapBuffer` and `StoredBlob` for the blob behind it and the column it ends up in.
- **The retention protocol** (`db.go`): any number of `Record`s and prunes in flight, each a few
  statements on three tables, every statement one atomic step. Modules `Retention`,
  `RetentionTheorems`, `RetentionStore`, `PruneTheorems`, `PruneThrottle`, `ClipError`.
- **The stream pump and the token counts** (`usage.go`): the read loop, its keepalive twin with a
  reader goroutine, a ticker and a shared buffer, and the fold of usage objects. Modules `Pump`,
  `KeepaliveRuns`, `KeepaliveComments`, `Usage`, `UsageForms`, `StreamUsage`.
- **The failover run** (`proxy.go`, `failover.go`, `rewrite.go`, `config.go`): modules `Config`,
  `ConfigTheorems`, `Rewrite`, `Failover`, `FailoverTheorems`.
- **File extraction** (`files.go`): a rewrite of JSON trees with a shared list and seen-set.
  Modules `FileText`, `TextScanners`, `FileTextTheorems`, `TextSecondPass`, `Files`, `FileShapes`,
  `FileLists`, `FileTheorems`, `RecordedFiles`.
- **The usage chart** (`admin_query.go`, `admin_filter.go`): Gregorian dates, ISO week dates
  (section 4.1.4 of ISO 8601:2004) and the filling of a series. Modules `Calendar`, `Buckets`,
  `BucketTheorems`.

Code that changes state is a method over fields, `seq`s and `map`s, proved equal to a function;
the properties are lemmas about those functions, and what the functions say is told once more
from the inputs alone, field by field and byte by byte. `dafny verify dfyconfig.toml` checks it all.

## What turned out not to hold

Seven things one would expect of the code fail on some inputs. For each there is a lemma that says
exactly when it holds, and so which inputs break it.

- *Merging keeps all text.* Two choices of one event with the same index lose the first one's
  text, because only the last is indexed (`sse_log.go:293-300`), and a `response.` type that is
  merged by the OpenAI key loses all choices, because `mergeSSE` dispatches on the prefix alone
  (`sse_log.go:188`). `MergeTheorems.LosslessExactly`: lossless if and only if the indexes are
  distinct and the type does not start with `response.`
- *The log reads as the stream.* It does as long as no event outgrows the writer. When one does,
  the writer writes what it has and starts anew in the middle of that event (`sse_log.go:68-75`),
  and may merge the frame that ends it with later ones. `SpillTheorems.SpillLosesNothingExactly`:
  nothing is lost, whatever follows up to the next spill, if and only if the event had come to
  the end of a line and brought no data but white space; `LongLineLosesText` has two writes that
  lose text. Such a log is too long to be stored, so a stored one is always whole:
  `StoredBlob.KeptExactly`.
- *The prune race is harmless* (comment at `db.go:279-282`). The upsert writes its own `now`
  unconditionally, so `visited_at` can go back. `RetentionTheorems.NoDanglingExactly`: joins never
  dangle, over all runs in which each Record does its upsert and its join within the latency of
  reading `now`, if and only if retention is off or at least twice that latency;
  `DanglingRun` is the run that breaks it.
- *A keepalive comment is invisible.* A tick inside an event ends that event for the client.
  `KeepaliveComments.HarmlessExactly`: nothing the client ever parses changes, whatever follows,
  if and only if the comment falls where no line and no field is pending.
- *Extraction leaves nothing behind.* A `b64_json` field in a text is matched from its opening
  quote, so a field opened by the closing quote of a replaced one is only found by a second
  extraction. `FileTheorems.SecondExtractionExactly`: it finds nothing if and only if no text of
  the tree, as it came in, has such a field; `LinkedFieldLeft` gives one for any payload.
- *It does not matter how usage lines are grouped.* It does for `Uncached`: a cache-miss count
  before a line without one counts in a block of its own, but not after an input.
  `Usage.UncachedDoesNotRegroup` has the lines, and `Usage.RegroupsExactly` the condition: the
  block ends with an uncached count of its own or has none, or there is no input, or its count
  is what the cached parts leave of the input anyway.
- *An update that carries its own uncached count keeps the counts balanced.*
  `Usage.MergeBalancedExactly`: if and only if no cache count is carried over under it;
  `CarriedCacheUnbalances` has two usage objects for which one is.

## What is assumed

- JSON is modelled by value: objects are maps, numbers and booleans are the text of their token.
  `JsonCodec.Codec.Lawful`: encoding and decoding an object gives it back, and an encoding is one
  line. Encoding never fails. `Codec.Textual`, for spilled events only: white space before a
  value is skipped; white space alone, a text that starts with a d, and one that ends with an
  object on a line behind something else are no object.
- Parts of a merge key are kept as values where the code concatenates their JSON texts, which
  separate themselves: equal values are assumed to be spelled alike. Where they are not, as with
  white space inside an `item_id` that is an object, the code merges less than the model, and a
  second compaction, which meets the first one's spelling, can merge more.
- `FileText.Lib.Lawful`: what is used of `reDataURL`, base64, SHA-256 and two string functions.
- `StoredBlob.Quoter.Lawful`: quoting a text as a JSON string makes it at least two bytes longer.
- None of this is contradictory: `Assumptions.CodecExists`, `LibExists` and `QuoterExists`.
- `Config.Env`: `strings.TrimSpace`, and the checks of URLs and DSNs, are any functions.
- An upstream attempt, a read, a write or a clock is a value given from outside.

## Model

| member | source | states |
|---|---|---|
| MergeLoops.BuildOpenaiMergeKey | sse_log.go:195-217 | the loop over the choices builds the key of the specification, or fails where it does |
| MergeLoops.CollectToolCallIndexes | sse_log.go:262-282 | the first occurrence of each tool-call index, in order; fails on an element that is no object |
| MergeLoops.MergeToolCall | sse_log.go:450-470 | the source's arguments are appended to the target's, or its whole function is taken where the target has none; a later id, type or name is dropped |
| MergeLoops.MergeToolCalls | sse_log.go:371-421 | calls of a known index are merged into the last such call, calls of a new one appended, in order |
| MergeLoops.MergeFunctionCall | sse_log.go:423-448 | arguments concatenated, and the name taken over where the target has no name key |
| MergeLoops.MergeOpenaiChoice | sse_log.go:328-369 | each text of the delta is concatenated, a finish_reason that is not null is taken over |
| MergeLoops.MergeOpenaiDelta | sse_log.go:284-326 | fails, or merges into each choice the last source choice with its index |
| MergeLoops.MergeAnthropicDelta | sse_log.go:492-513 | the delta's text grows, or the merge fails |
| MergeLoops.MergeResponsesDelta | sse_log.go:547-554 | delta is concatenated, sequence_number taken over, or the merge fails |
| MergeLoops.MergeSse | sse_log.go:183-193 | the in-place merge as one function; on failure the object is the one it was given |
| MergeLaws.OpenAIMergeKeeps | sse_log.go:284-326 | same key, distinct indexes: the merge succeeds and keeps the key |
| MergeLaws.MergeKeepsKey | sse_log.go:78-94 | for every route, equal keys mean the merge succeeds and the pending object's key stays |
| KeyTheorems.RouteExactly | sse_log.go:160-181 | the protocol is told from the type field: content_block_delta, response.….delta, or else by choices |
| KeyTheorems.SameIndexExactly | sse_log.go:589-599 | two indexes are one exactly if the fields are equal or both say 0, if only by missing |
| KeyTheorems.ResponsesKeyExactly | sse_log.go:515-545 | a Responses event has a key exactly if its type is one of ten and its delta a string |
| KeyTheorems.ResponsesKeysEqual | sse_log.go:529-545 | two have the same key exactly if type, item_id, output_index, content_index and summary_index are equal |
| KeyTheorems.AnthropicKeyExactly | sse_log.go:471-490 | an Anthropic event has a key exactly if its delta is one of four types with a string in that type's field |
| KeyTheorems.AnthropicKeysEqual | sse_log.go:478-490 | two have the same key exactly if block index and delta type are the same |
| KeyTheorems.OpenAIKeyExactly | sse_log.go:195-260 | an OpenAI event has a key exactly if every choice has something in it to append to |
| KeyTheorems.OpenAIKeysEqual | sse_log.go:195-260 | two have the same key exactly if their choices, one by one, have the same index and the same fields that can grow |
| KeyTheorems.FirstIndexesExactly | sse_log.go:262-282 | the indexes of a list are those of its calls, each once, in the order they first come |
| ChannelTheorems.ReadsTexts | sse_log.go:340-352 | the channels of an OpenAI event read its content, reasoning and legacy text |
| ChannelTheorems.ReadsFunctionCall | sse_log.go:423-448 | the arguments of its function call |
| ChannelTheorems.ReadsToolCall | sse_log.go:450-470 | and those of its tool calls |
| ChannelTheorems.ReadsBlocks | sse_log.go:471-490 | those of an Anthropic event the four kinds of delta |
| ChannelTheorems.ReadsItems | sse_log.go:547-554 | that of a Responses event its delta |
| ChannelTheorems.ReadsNoOther | sse_log.go:183-217 | of an event of another choice, block or item a channel reads nothing |
| MergeTheorems.MergeAppends | sse_log.go:284-470 | on every channel the merged object reads as the pending one followed by the new one |
| MergeTheorems.MergeFinish | sse_log.go:328-369 | each choice's finish_reason is the later non-null one |
| MergeTheorems.MergeFields | sse_log.go:317-326 | of an event's other fields usage and sequence_number are the later ones, all else is the first one's |
| MergeTheorems.ChoiceFields | sse_log.go:328-369 | of a choice nothing but finish_reason, text and delta changes |
| MergeTheorems.DeltaFields | sse_log.go:328-369 | of a delta nothing but its texts and calls changes |
| MergeTheorems.FunctionCallFields | sse_log.go:423-448 | a function call keeps all it had and takes over the name it lacks |
| MergeTheorems.ToolCallFields | sse_log.go:450-470 | a tool call keeps all it had, but for its function's arguments |
| MergeTheorems.TakenWhole | sse_log.go:328-470 | what the target lacks is taken as it comes, and what brings nothing to append is passed over |
| MergeTheorems.DuplicateLoses | sse_log.go:293-300 | any repeated index has a pair of events whose merge loses text |
| MergeTheorems.MisroutedLoses | sse_log.go:183-193 | any response. type merged by the OpenAI key has a pair of events whose merge loses text |
| MergeTheorems.LosslessExactly | sse_log.go:160-193 | OpenAI events never lose text if and only if indexes are distinct and the type is not response. |
| SseWire.ParseSseFields | sse_log.go:130-158 | the event name and the data lines joined by LF, as section 9.2.6 of the WHATWG HTML Living Standard reads them, CRs trimmed |
| SseWire.CutFlatten | sse_log.go:54-76 | cutting the concatenation of whole events gives back those events |
| SseWire.FrameReadsBack | sse_log.go:96-121 | a written event parses back to the same event name and data |
| SseWire.FrameIsEvent | sse_log.go:96-121 | what is written for a merged event is exactly one whole event |
| WireText.FrameSpelled | sse_log.go:96-121 | a merged event is written as event: name, data: json and a blank line |
| WireText.DataLineRead | sse_log.go:54-76 | an event of one data line is read alike with and without a space after the colon, with LF and with CRLF |
| SseLogWriter.PendingSse.constructor | sse_log.go:13-26 | a fresh pending event, not merged yet |
| SseLogWriter.Writer.constructor | sse_log.go:28-30 | an empty writer |
| SseLogWriter.Writer.WriteOut | sse_log.go:123-128 | appends to the log unless there is nothing to write |
| SseLogWriter.Writer.FlushPending | sse_log.go:96-121 | an unmerged event is written as it came, a merged one framed anew, and none is pending after |
| SseLogWriter.Writer.HandleEvent | sse_log.go:78-94 | one step of the declarative fold: joins the pending event, or flushes it and becomes pending or passes |
| SseLogWriter.Writer.Mergeable | sse_log.go:160-181 | the object and key of a data payload, if it has them |
| SseLogWriter.Writer.Consume | sse_log.go:54-76 | takes every whole line, spills over the cap, and leaves at most the cap in acc and carry, whatever the input |
| SseLogWriter.Writer.Write | sse_log.go:32-40 | reports a full write and is one step of the specification |
| SseLogWriter.Writer.Flush | sse_log.go:42-52 | the unfinished event and the pending one are written |
| ChunkTheorems.ConsumedFollowsCut | sse_log.go:54-76 | consuming a chunk follows the automaton that cuts the stream into events |
| ChunkTheorems.ChunksDoNotMatter | sse_log.go:32-76 | any split of a stream into writes that does not spill gives the log of the stream's events |
| ChunkTheorems.FittingNeverSpills | sse_log.go:68-75 | a stream without an event above the cap never spills, however it is split |
| SpilledWrites.TranscriptSplits | sse_log.go:68-75 | after a spill the log is the events before it compacted, the event under way as far as it came, and what the later writes give alone |
| SpilledWrites.SpilledIsLong | sse_log.go:68-75 | a log that has spilled is longer than any blob |
| SseSuffixes.DataBehind | sse_log.go:130-158 | the data of an event under way comes before the data of what follows |
| SseSuffixes.LineSwallows | sse_log.go:130-158 | a frame that falls into an unfinished line is lost, whatever is in it |
| SpillTheorems.ReadsAlikeExactly | sse_log.go:54-94 | a compacted stream behind a part of an event reads as the stream, whatever the stream, if and only if that part is whole lines without data but white space |
| SpillTheorems.SpillLosesNothingExactly | sse_log.go:54-76 | after a spill the log keeps reading as the stream, whatever is written up to the next one, under the same condition exactly |
| SpillTheorems.LongLineLosesText | sse_log.go:68-75 | two writes whose log has lost the text of a delta |
| SseTheorems.CompactCuts | sse_log.go:78-121 | the compacted transcript cuts into exactly the events written |
| SseTheorems.TextPreserved | sse_log.go:78-121 | on every channel the compacted transcript reads as the stream |
| SseTheorems.CompactIdempotent | sse_log.go:78-121 | compacting a compacted transcript returns it byte for byte |
| RunTheorems.OutputIsRuns | sse_log.go:78-94 | the output is one event per maximal run of same-key events |
| RunTheorems.WriterWritesRuns | sse_log.go:32-121 | the same, from any sequence of writes that does not spill |
| RunTheorems.WriterIdempotent | sse_log.go:32-121 | the writer fed its own output, in any chunks that do not spill, returns it |
| RunTheorems.RunFinish | sse_log.go:328-369 | a merged choice's finish_reason is the run's last non-null one |
| RunTheorems.RunReadsBack | sse_log.go:96-121 | what is written for a run reads back as its first event's name and its objects merged |
| RunTheorems.RunFields | sse_log.go:317-326 | it has the run's last usage and sequence number, and else what the first event had besides the choices |
| CapBuffer.Buffer.constructor | proxy.go:423-427 | an empty buffer |
| CapBuffer.PrefixIs | proxy.go:428-441 | the first max bytes: the longest start that fits |
| CapBuffer.Buffer.Write | proxy.go:428-441 | holds the first max bytes of all that was written, reports full writes |
| CapBuffer.WriteChunks | proxy.go:423-445 | any chunks: the first max bytes of their concatenation |
| CapBuffer.SseBlob | proxy.go:335-342 | forward's buffer holds the first 2^24-1 bytes of the log: of the compacted stream, however it was read, or, after a spill, that many bytes |
| StoredBlob.EncodeResponseBlob | usage.go:410-422 | a streamed body is quoted, an empty one is none |
| StoredBlob.StoreResponse | db.go:152-182 | the response column: nothing without retention or over the cap, else the extracted body if that fits |
| StoredBlob.StoredExactly | db.go:296-301 | the quoted buffer passes the clip if and only if it is not empty and its quoted length is within the cap |
| StoredBlob.FullBufferIsNotStored | db.go:296-301 | a buffer that is full, or a byte short of it, is not stored at all |
| StoredBlob.PlainStoredExactly | db.go:296-301 | a body that is no stream is kept as it is, if it fits |
| StoredBlob.WholeOrNothing | db.go:296-301 | what passes the clip is the whole transcript, quoted, never a cut-off one |
| StoredBlob.KeptExactly | db.go:296-301 | for every stream, what passes the clip is the whole compacted stream, quoted, if nothing spilled and it fits, else nothing |
| StoredBlob.StoreStream | proxy.go:335-360 | from the chunks read, whatever they are, to the column: the whole compacted stream, quoted and extracted, or nothing |
| StoredBlob.StoredTextPreserved | proxy.go:335-360 | what passes the clip is quoted from a transcript in which every channel reads as in the stream |
| Retention.PositionOf | db.go:210 | the position of a digest in the list |
| RetentionTheorems.UpsertKeepsHeld | db.go:212-217 | an upsert moves visited_at back by no more than the latency |
| RetentionTheorems.DeleteKeepsHeld | db.go:279-288 | no prune deletes a file a timely Record is about to join |
| RetentionTheorems.StepKeepsInv | db.go:194-288 | every statement of every Record and prune keeps the invariant |
| RetentionTheorems.RunKeepsInv | db.go:194-288 | the invariant over whole runs |
| RetentionTheorems.DanglingRun | db.go:214-216 | with less than twice the latency, a run that leaves a join without its file |
| RetentionTheorems.NoDanglingExactly | db.go:279-282 | joins never dangle if and only if retention is off or at least twice the latency |
| RetentionTheorems.WindowKept | db.go:245-277 | a call inside the window keeps its row, blobs and joins in every interleaving |
| RetentionTheorems.WindowReadable | db.go:245-288 | its files can be read too, at twice the latency |
| RetentionTheorems.JoinsNumbered | db.go:207-219 | joins are numbered 0 to n-1 in list order and touch no other row |
| RetentionTheorems.InsertableExactly | db.go:194-220 | in every run, the joins of a Record in flight go in if and only if its list names no file twice |
| RetentionStore.RowsUpsertedIs | db.go:212-217 | inserting rows one by one with the conflict clause is the set-wise upsert |
| RetentionStore.RowsInsertedIs | db.go:219 | inserting joins one by one fails exactly on a key collision |
| RetentionStore.CallStore.constructor | db.go:144-146 | the tables it is given |
| RetentionStore.CallStore.StoreFiles | db.go:194-220 | files are upserted, then joined; a collision leaves them upserted |
| RetentionStore.CallStore.Prune | db.go:245-288 | with retain and now: calls keep blobs and joins only inside the window, files only if a remaining join names them or they were visited inside it, all else stays; outside retention nothing is inside |
| RetentionStore.PruneLeaves | db.go:245-288 | the three statements, one after the other, leave just that |
| RetentionStore.PruneClearsAll | db.go:245-288 | with retention off no blob, no join and no file is left |
| RetentionStore.UpsertLeaves | db.go:212-217 | a stored file is visited now and keeps when it was created, the others stay as they were |
| RetentionStore.PruneKeepsFiles | db.go:245-288 | so a prune on its own leaves no join without its file |
| PruneTheorems.PruneInOneGo | db.go:245-288 | four steps of a run with nobody in between are such a prune |
| PruneTheorems.NothingOldLeft | db.go:245-288 | after them no blob, no join of a call and no unreferenced file is older than the window |
| PruneTheorems.OldBlobsGone | db.go:245-257 | in every interleaving a prune takes the blobs of every call that was too old when it began, for good |
| PruneTheorems.OldJoinsGone | db.go:268-277 | and the joins, if the call's Record is over |
| PruneTheorems.OldFilesGone | db.go:279-288 | and leaves only files that a join names or that were visited inside the window |
| PruneTheorems.GivenUp | db.go:194-288 | a Record or a prune whose statement fails leaves the tables as they are |
| PruneTheorems.CallRowIs | db.go:164-192 | in every run the row of a call says when its Record began, and has blobs if any are retained |
| PruneTheorems.JoinRowsAre | db.go:203-220 | and its joins name its files in order |
| PruneTheorems.FilesMarked | db.go:198-217 | and its files are marked with the time it read |
| PruneThrottle.CallsAccounted | db.go:222-236 | 50 per prune plus the ones since plus the skipped ones are all completed calls |
| ClipError.CutNear | db.go:303-312 | valid UTF-8 can be cut at most three bytes before any position |
| ClipError.EncodedIsRune | db.go:303-312 | valid UTF-8 is told as section 3 of RFC 3629 has it: the encoding of each character is one |
| ClipError.RuneIsEncoded | db.go:303-312 | and nothing else is |
| ClipError.Clip | db.go:303-312 | the longest valid prefix of at most 1024 bytes; of valid text at most three further bytes are dropped |
| Pump.Copier.constructor | usage.go:316-330 | nothing sent, nothing seen |
| Pump.Copier.TakeLines | usage.go:316-350 | the carry is cut into lines, each scanned once, in order |
| Pump.Copier.Consume | usage.go:316-350 | sends a chunk, then scans its lines; an over-long rest is scanned as it is and dropped from the carry |
| Pump.Copier.Finish | usage.go:316-360 | the last line without LF is scanned |
| Pump.Copier.PumpPlain | usage.go:316-360 | the loop with keepalive 0 as a fold over the reads |
| KeepaliveRuns.PlainSends | usage.go:316-360 | while it runs, the loop has sent exactly what it has read |
| KeepaliveRuns.RestCarried | usage.go:325-342 | an unfinished line is carried on, or scanned as it is once it is over the cap |
| KeepaliveRuns.ReadEnds | usage.go:316-360 | how each read ends it: a failed write, else the read's error, the end of the stream being none |
| Pump.KeepaliveRefinesPlain | usage.go:362-402 | in every interleaving at most one read is outstanding, none while its chunk is consumed, and dst, lines and result are the plain loop's |
| Pump.KeepaliveEndsAsPlain | usage.go:362-402 | a run that ends by itself ends as the whole plain run |
| KeepaliveRuns.ClientGetsSteps | usage.go:362-402 | in every run the client is written, in step order, one comment for each tick whose ping succeeds and the chunk of each read whose write succeeds |
| KeepaliveRuns.PingFailureEnds | usage.go:396-399 | a tick ends the run with its ping's error exactly if the ping fails, and nothing is written after that |
| KeepaliveRuns.PlainIsARun | usage.go:362-402 | every plain run is a keepalive run without ticks |
| KeepaliveRuns.CanTick | usage.go:396-399 | wherever the loop is running, a tick may come |
| KeepaliveRuns.ReadsMayScribble | usage.go:362-377 | a read in progress may leave anything in the shared buffer |
| Pump.LinesDoNotDependOnReads | usage.go:316-360 | scan sees the lines of what was sent, however it was split into reads |
| KeepaliveComments.CommentsInvisible | usage.go:362-402 | comments at quiet points leave the client's parser in the same state |
| KeepaliveComments.BoundaryIsQuiet | usage.go:362-402 | an event boundary is such a point |
| WireText.CommentSpelled | usage.go:262 | a comment is a colon and a blank line |
| KeepaliveComments.ClientParsesThePlainStream | usage.go:362-402 | in every interleaving whose ticks fall on event boundaries, the client has parsed what it would have parsed of the plain loop |
| KeepaliveComments.HarmlessExactly | usage.go:362-402 | a comment changes nothing, whatever follows, if and only if the parser is quiet |
| Usage.TokenUsage.constructor | usage.go:16-24 | all zero |
| Usage.TokenUsage.FillUncached | usage.go:55-64 | writes Uncached where the input is not zero |
| Usage.TokenUsage.Merge | usage.go:29-53 | the in-place merge as one function |
| Usage.FoldLines | usage.go:281-293 | the scan callback folds the lines in order |
| StreamUsage.CopySse | usage.go:281-293 | the usage copySSE returns is the fold over the lines of what was sent |
| StreamUsage.UsageDoesNotDependOnReads | usage.go:281-350 | two streams of the same bytes report the same usage, however they were read |
| StreamUsage.KeepaliveUsage | usage.go:281-402 | a keepalive run that ends by itself finds and folds to the usage of the plain loop |
| Usage.FoldIsLastReported | usage.go:29-53 | Input, Output, CacheRead, CacheCreation and the model are each the last one reported |
| Usage.FoldRegroups | usage.go:29-53 | folding any block of lines first gives the same five results |
| Usage.RegroupsExactly | usage.go:29-64 | folding a block of lines first gives the same result, Uncached included, if and only if the block may be grouped |
| Usage.UncachedDoesNotRegroup | usage.go:29-64 | prompt tokens, a cache-miss count, completion tokens, of whatever size: grouped and one by one Uncached differs |
| Usage.TokensConserved | usage.go:136-205 | Uncached is what the cached parts leave of the input, without a reported miss count |
| Usage.AnthropicUncachedIsInput | usage.go:136-205 | in Anthropic's form Uncached is input_tokens, and the parts add up to Input |
| UsageForms.CountsExactly | usage.go:136-205 | where output, cached and written tokens are looked for, in order |
| UsageForms.InputExactly | usage.go:136-205 | what the input is made of, and when the total stands in for it |
| UsageForms.ChatForm | usage.go:136-205 | the counts of OpenAI's chat form |
| UsageForms.ResponsesForm | usage.go:136-205 | of the Responses form |
| UsageForms.MessagesForm | usage.go:136-205 | of Anthropic's form |
| UsageForms.HitMissForm | usage.go:136-205 | of the form with cache hits and misses |
| UsageForms.EvalForm | usage.go:136-205 | of Ollama's form |
| UsageForms.EmbeddingForms | usage.go:136-205 | of embeddings with a total only, and with image tokens |
| UsageForms.NamedNestedRefills | usage.go:219-234 | a nested object that only names its model has Uncached made up again |
| Usage.OutputUpdateKeepsExactly | usage.go:29-64 | an output-only update keeps Uncached if and only if it was balanced or there is no input |
| Usage.OutputUpdatesKeep | usage.go:29-64 | any number of them leave Input, the cache counts and Uncached |
| Usage.MergeBalancedExactly | usage.go:29-64 | merging balanced counts stays balanced if and only if no cache count is carried over under a new uncached count |
| Usage.CarriedCacheUnbalances | usage.go:29-64 | input with a cached part, then an input without one: both balanced, their merge not |
| Usage.MergeNested | usage.go:219-234 | the nested model and usage over what was there |
| Usage.ParseUsage | usage.go:236-260 | the order in which the places of a body are read |
| Usage.ParsedIsLastPlace | usage.go:236-260 | each count is the last non-zero one of the four places, the model the last named |
| Rewrite.EnsureIncludeUsage | rewrite.go:57-70 | include_usage set if absent, an error if the options are no object |
| Rewrite.RewriteRequest | rewrite.go:32-55 | the assignments to the decoded map as one function |
| Rewrite.ParsedExactly | rewrite.go:16-30 | accepted exactly if an object whose model is a string and not empty; it streams only if stream is true |
| Rewrite.RewriteSucceedsExactly | rewrite.go:32-55 | fails only over unusable stream_options that had to be changed |
| Rewrite.RewriteParsesBack | rewrite.go:16-55 | parses back with the upstream's model and the same stream flag |
| Rewrite.RewriteKeepsTheRest | rewrite.go:32-70 | the request with the upstream's model, asked for usage where that was to be; no other key changes and no include_usage is overwritten |
| Rewrite.RewriteIdempotent | rewrite.go:32-55 | rewriting twice is rewriting once |
| Config.RestrictedEndpoint | config.go:167-198 | a bound provider has exactly the endpoints of the listed protocols |
| Config.Restrict | config.go:167-198 | clears the endpoints not listed |
| Config.BoundEndpoint | config.go:167-198 | an endpoint of a bound provider is the vendor's |
| Config.Bind | config.go:167-198 | the association's model where it has one, and its listed endpoints, over a copy of the vendor |
| Config.ValidateKeys | config.go:241-345 | accepts exactly named, non-empty, distinct keys |
| Config.ValidateProvider | config.go:347-368 | accepts exactly a provider with an endpoint, and an accepted URL in each |
| Config.ValidateProviders | config.go:241-345 | accepts exactly distinct valid providers, and indexes them by name |
| Config.ValidateProtocols | config.go:241-345 | accepts exactly distinct known protocols the provider has |
| Config.ValidateRefs | config.go:241-345 | accepts exactly distinct references to configured providers |
| Config.ValidateModels | config.go:241-345 | accepts exactly distinct models with valid references |
| Config.Configuration.constructor | config.go:226-239 | the configuration as loaded |
| Config.Configuration.Validate | config.go:241-345 | accepts if and only if every rule holds; trims the admin's name and nothing else |
| ConfigTheorems.RejectedExactly | config.go:241-368 | a configuration is rejected exactly for one of the reasons the code gives |
| ConfigTheorems.KnownExactly | config.go:17-23 | the seven protocols by name |
| ConfigTheorems.EndpointsNamed | config.go:147-165 | each protocol has its own block of a provider |
| Config.ProviderNamedIs | config.go:407-417 | with distinct names the lookup finds the provider itself |
| Config.ModelNamedIs | config.go:395-405 | with distinct names the lookup finds the model itself |
| Config.BindAll | config.go:419-433 | exactly the associations with a configured provider, in order, each bound to it |
| Config.ProvidersFor | config.go:435-444 | those among them that serve the protocol, in order |
| Config.RoutedServes | config.go:200-210 | each resolves with the model of its endpoint, else its association, else its vendor |
| Config.RoutingTotal | config.go:395-444 | in a valid configuration routing yields exactly the associations listing the protocol, in order |
| Failover.FailsOverExactly | failover.go:11-48 | any chain of errors, a DNS error over a context error included, fails over if and only if its cause is no cancellation, and it is a dial failure, a DNS failure or no timeout |
| Failover.TransportFailsOverExactly | failover.go:11-48 | the same of a url.Error over a net.OpError over any chain |
| Failover.CanceledLookupStays | failover.go:11-48 | a name lookup the client canceled does not fail over, one that timed out does |
| Failover.StatusFromErrExactly | proxy.go:551-557 | an error that is reported is a 504 exactly if it is a timeout, else a 502 |
| Failover.FailoverStatusMovesOn | failover.go:11-48 | 502, 503 and 504 answers always move on |
| Failover.ResponseWriter.WriteHeader | proxy.go:377-380 | one more start of the response |
| Failover.WriteTracker.WriteHeader | proxy.go:377-380 | remembers that the response was started |
| Failover.Proxy.LogCall | proxy.go:175-180 | one more record |
| Failover.Proxy.Forward | proxy.go:246-370 | one attempt: exactly one record with its own payload and status, at most one start with the right status, an error whenever it has not written |
| Failover.Proxy.Try | proxy.go:223-244 | the loop moves on exactly after a catastrophic, unwritten, uncanceled attempt |
| Failover.Proxy.Serve | proxy.go:182-244 | the attempts are a prefix of the providers, all but the last moved on, one record each; one response with the status due, none if the client canceled first; lastErr is there when read |
| Failover.Proxy.AllUnavailable | proxy.go:239-244 | lastErr is there, and the response is a 502 |
| Failover.NoMissingEndpoint | proxy.go:247-259 | with a valid configuration no attempt lacks its endpoint |
| FailoverTheorems.RequestSent | proxy.go:272-281 | the request on record parses as the client's with the model its provider resolves to, and asked for usage if it streams and that is injected |
| FailoverTheorems.RequestRefused | proxy.go:262-279 | a request that cannot be sent is recorded as it came, with 400 |
| FailoverTheorems.NoEndpointMovesOn | proxy.go:247-259 | a provider without the endpoint is recorded as failed and passed over |
| FailoverTheorems.AnswerRecorded | proxy.go:299-370 | the record has the answer's status, and no failure exactly if it was passed on whole |
| FailoverTheorems.RunSends | proxy.go:223-281 | in a valid configuration each attempt of a run is recorded under its association's name with the model of its endpoint, else its association, else its vendor, else the client |
| FailoverTheorems.AnswerMovesOnExactly | proxy.go:315-321 | an answer goes on to the next provider exactly at 502, 503 and 504 |
| FailoverTheorems.ErrorMovesOnExactly | failover.go:11-48 | an error does exactly at a dial or lookup failure or no timeout, unless the client canceled |
| FailoverTheorems.EarlierMovedOn | proxy.go:223-237 | every attempt of a run but its last was one of these |
| FailoverTheorems.ClientGets | proxy.go:223-244 | what the client gets, told from the last attempt: the answer's status, 400, 504, 502 or nothing |
| FileTextTheorems.FieldSpanExactly | files.go:31 | FieldSpan gives the bounds of the payload of the expression's match at the start of a text, and nothing else |
| FileShapes.AlphabetExactly | files.go:31 | the characters of a payload are those of base64 |
| FileTextTheorems.UrlsAllTaken | files.go:310-322 | one pass leaves no data URL it could take |
| FileTextTheorems.FieldsBringNoUrl | files.go:323-335 | replacing fields brings no data URL back |
| TextScanners.SecondPass | files.go:323-335 | what a pass finds in its own output, exactly |
| FileTextTheorems.FieldsQuoted | files.go:31 | no field starts inside a field before its closing quote, and placeholders hold none |
| TextSecondPass.HidesSame | files.go:305-337 | taking the data URLs out of a text hides no field behind another one's quote and uncovers none |
| TextSecondPass.SecondTextPass | files.go:305-337 | a second rewriteText finds something if and only if, in the text as it came, a replaced field's closing quote opens another decodable one |
| Files.Extraction.constructor | files.go:124-125 | an empty list and seen-set |
| Files.Extraction.Add | files.go:154-160 | the list stays the first file with each digest, in the order met |
| Files.Extraction.Replace | files.go:305-337 | one ReplaceAllStringFunc: the text rewritten, the files taken in order, changed if there were any |
| Files.Extraction.RewriteText | files.go:305-337 | both passes |
| Files.Extraction.RewriteJson | files.go:162-193 | any tree: rewritten as specified, changed if and only if a file was found, all files found taken |
| Files.Extraction.RewriteArray | files.go:195-216 | the elements in order |
| Files.Extraction.ReplaceDirect | files.go:226-283 | the four rules on the object as they leave it amount to one replacement per field |
| Files.RulesTogether | files.go:226-283 | a rule that comes later finds what it would have found first, except a payload already replaced |
| FileShapes.ReplacedExactly | files.go:226-283 | a field is replaced as a whole exactly if its object has one of four shapes |
| FileShapes.FieldTaken | files.go:226-294 | such a field becomes the placeholder of its bytes, which are found with the MIME type of the shape; any other is rewritten like a value of its own |
| FileShapes.TakenAnywhere | files.go:162-216 | however deep in a tree an object or a list is, it is rewritten there as by itself and all its files are found |
| FileShapes.TextTaken | files.go:179-216 | so is a text in a list |
| FileShapes.GuardHarmless | files.go:305-308 | looking for two words first makes no difference |
| FileShapes.UrlTaken | files.go:310-322 | the first data URL of a text becomes its placeholder, with the type it tells |
| FileShapes.B64FieldTaken | files.go:323-335 | the payload of the first b64_json field becomes its placeholder |
| Files.Extraction.WalkFields | files.go:285-294 | the other fields in any order |
| Files.Extraction.RewriteObject | files.go:218-303 | an object |
| FileTheorems.ChangedExactly | files.go:120-131 | the tree is left as it was if and only if no file is found in it |
| FileTheorems.SoundAmong | files.go:133-152 | a list merged from several bodies accounts for the placeholders of each |
| FileTheorems.ExtractionSound | files.go:120-131 | every placeholder has an entry with the bytes of the payload it replaced, and the rest of the tree is as it was |
| FileTheorems.NoDirectAgain | files.go:226-283 | no rule applies to an object a second time |
| FileTheorems.SecondExtractionExactly | files.go:120-131 | a second extraction finds nothing if and only if no text hides a field behind another one's quote |
| FileTheorems.LinkedFieldLeft | files.go:323-335 | any payload gives a text whose second field is only found the second time |
| FileLists.FirstOfEachDistinct | files.go:154-160 | the digests are distinct, and all of them |
| FileLists.FirstOfEachBoth | files.go:133-152 | extracting and merging keep the first file of each digest of both bodies |
| FileLists.FirstOfEachInOrder | files.go:133-160 | entries are the first with their digest, in list order |
| FileLists.MergeExtracted | files.go:133-152 | the loops and shortcuts as one function |
| FileLists.MergedIsFirstOfEach | files.go:134-139 | the shortcuts make no difference |
| RecordedFiles.ExtractFiles | files.go:120-131 | the rewritten body and the files found in it, which account for its placeholders; the body itself if none |
| RecordedFiles.RecordFiles | db.go:152-164 | both bodies rewritten if retained, and one list with pairwise distinct digests that accounts for the placeholders of both |
| FileLists.NoJoinKeyCollision | db.go:198-219 | the join keys of a new call never collide and are numbered from 0 |
| FileLists.InFlightJoinsGoIn | db.go:194-220 | so in every run the joins of every Record in flight go in, in list order |
| Calendar.YearOf | admin_query.go:201-212 | the year a day is in |
| Calendar.DateRoundTrip | admin_query.go:172-188 | a date names its day |
| Calendar.LeapExactly | admin_query.go:172-188 | which years are leap years |
| Calendar.EpochIs | admin_query.go:172-188 | day 0 is the first of 1970, a Thursday |
| Calendar.FirstOfYear | admin_query.go:172-188 | a year starts on 1 January |
| Calendar.NextDate | admin_query.go:189-199 | the day after a day has the next date: by the lengths of the months |
| Calendar.IsoWeeksDiffer | admin_query.go:205-207 | a week label names one week, across calendar years too |
| Calendar.IsoWeekIs | admin_query.go:205-207 | weeks are numbered from the one with 4 January, up to 53 |
| Buckets.ZeroTimeIs | admin_query.go:214-222 | the zero time is the start of year 1, a day is 24 hours |
| Buckets.FillUsageBuckets | admin_query.go:214-232 | the loop ends and gives one row per bucket, or the rows as they are |
| Buckets.ParseRange | admin_filter.go:45-125 | which window a filter gets: presets of 1, 7, 30 and 90 days, custom ranges of at most 366 for usage, and for the rest seven days of usage or all calls; hours up to 48 hours, days up to 62 days, else weeks |
| BucketTheorems.TruncateIs | admin_query.go:172-199 | a bucket reaches from its start to the next start |
| BucketTheorems.SameLabelExactly | admin_query.go:172-212 | two instants have the same label if and only if they are in the same bucket |
| BucketTheorems.FilledInOrder | admin_query.go:214-232 | labels are pairwise distinct and in time order |
| BucketTheorems.FilledCovers | admin_query.go:214-232 | every instant of the window has its bucket in the series |
| BucketTheorems.RowsKept | admin_query.go:214-232 | each row is in the series exactly once |
| BucketTheorems.UsageTotals | admin.go:133-162 | the totals of a series |
| BucketTheorems.SumByColumn | admin.go:133-162 | each total is the sum of its own column |
| BucketTheorems.FillConserves | admin.go:133-162 | the series counts what the rows count |
| BucketTheorems.ChartIsShort | admin_filter.go:116-125 | at most 49 hours, 63 days or 54 weeks |
| BucketTheorems.UsageChart | admin.go:116-162 | for whatever parameters: a short chart, and totals that are those of the rows |

## Left out

- HTTP transport, headers, flushing, compression, TLS, signals: an upstream attempt is an outcome.
- JSON text: white space, key order, duplicate keys and the spelling of strings and numbers.
- gorm and SQL text: each statement is one atomic step on maps; MySQL isolation levels and the
  rounding of `datetime(3)` are not modelled, times are in the column's unit.
- The size of the merged pending object: nothing in the code bounds it, so the cap is about acc
  and carry only.
- The id: and retry: fields of merged events, which the code drops.
- Integer overflow of token counts; first-token time and output speed, which are wall-clock
  measurements.
- The spelling of token counts (`jsonInt64`) and the recognition of data lines: `FoldLines` takes
  the parser of a line as a function.
- Failover.WriteTracker.WriteHeader: the tracker's Write marks the response as started too; a
  start stands for either.
- Errors that wrap several others (`errors.Join`): an error is a chain.
- The other fields of a call record (model names, key name, response, latencies) in a run.
- Error texts of configuration and request errors; loading the configuration; a nil configuration.
- `parseDataURL`, the pattern of data URLs and base64 itself: any functions that keep
  `FileText.Lib.Lawful`.
- The printed form of bucket labels: they are kept as the fields they are printed from. The SQL
  that groups the rows is a function that returns one row per label of the window.
- Parsing of times and time zones in the admin filter, the other admin pages, `outcomeSQL`,
  paging, cookies and the web front end.
- A dst write that fails is modelled as delivering nothing; a short write with bytes delivered is
  not.
